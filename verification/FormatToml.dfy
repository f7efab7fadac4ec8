/** config/config.go: formatTOML, applied to every configuration text before it is written. */
module FormatToml {
  import opened Wrappers
  import opened Text
  import opened TomlLine
  import opened ConfigSections

  /** strings.TrimRight(line, " \t") */
  function TrimBlanks(line: string): string {
    if line != [] && IsBlankChar(line[|line| - 1]) then TrimBlanks(line[..|line| - 1]) else line
  }

  /** What follows a header holds nothing but blank lines up to the next header or the end. */
  predicate SectionEmpty(rest: Lines) {
    rest == [] || IsHeader(rest[0]) || (Blank(rest[0]) && SectionEmpty(rest[1..]))
  }

  predicate EmptyHeaderAt(lines: Lines, i: nat)
    requires i < |lines|
  {
    IsHeader(lines[i]) && SectionEmpty(lines[i + 1..])
  }

  /** Without the headers of empty sections, every line right-trimmed. */
  function Kept(lines: Lines): Lines {
    if lines == [] then []
    else if EmptyHeaderAt(lines, 0) then Kept(lines[1..])
    else [TrimBlanks(lines[0])] + Kept(lines[1..])
  }

  predicate EndsBlank(out: Lines) {
    out != [] && Blank(out[|out| - 1])
  }

  /** One line goes out: blank lines are collapsed, a header gets a blank line in front. */
  function Emit(out: Lines, line: string): Lines {
    if Blank(line) then (if EndsBlank(out) then out else out + [""])
    else if IsHeader(line) && out != [] && !EndsBlank(out) then out + ["", line]
    else out + [line]
  }

  function EmitAll(lines: Lines): Lines {
    if lines == [] then [] else Emit(EmitAll(lines[..|lines| - 1]), lines[|lines| - 1])
  }

  function StripLead(lines: Lines): Lines {
    if lines != [] && Blank(lines[0]) then StripLead(lines[1..]) else lines
  }

  function StripTail(lines: Lines): Lines {
    if lines != [] && Blank(lines[|lines| - 1]) then StripTail(lines[..|lines| - 1]) else lines
  }

  function FormatLines(lines: Lines): Lines {
    StripTail(StripLead(EmitAll(Kept(lines))))
  }

  function Format(raw: string): string {
    Join(FormatLines(Split(raw, '\n')), '\n') + "\n"
  }

  // --- The loops ---

  /** Pass 1: which lines are headers of empty sections. */
  method FindEmptySections(lines: Lines) returns (skip: set<nat>)
    ensures forall i: nat :: i in skip <==> i < |lines| && EmptyHeaderAt(lines, i)
  {
    skip := {};
    var i := 0;
    while i < |lines|
      invariant 0 <= i <= |lines|
      invariant forall k: nat :: k in skip <==> k < i && EmptyHeaderAt(lines, k)
    {
      if IsHeader(lines[i]) {
        var hasContent := false;
        var j := i + 1;
        while j < |lines|
          invariant i + 1 <= j <= |lines| && !hasContent
          invariant SectionEmpty(lines[i + 1..]) == SectionEmpty(lines[j..])
        {
          assert lines[j..][1..] == lines[j + 1..];
          if IsHeader(lines[j]) {
            break;
          }
          if !Blank(lines[j]) {
            hasContent := true;
            break;
          }
          j := j + 1;
        }
        if !hasContent {
          skip := skip + {i};
        }
      }
      i := i + 1;
    }
  }

  lemma {:induction false} EmitAllSnoc(lines: Lines, line: string)
    ensures EmitAll(lines + [line]) == Emit(EmitAll(lines), line)
  {
    assert (lines + [line])[..|lines|] == lines;
  }

  lemma {:induction false} KeptFrom(lines: Lines, i: nat)
    requires i < |lines|
    ensures Kept(lines[i..]) == (if EmptyHeaderAt(lines, i) then [] else [TrimBlanks(lines[i])]) + Kept(lines[i + 1..])
  {
    assert lines[i..][1..] == lines[i + 1..];
  }

  /** The body of pass 2's loop behind the skip test. */
  method EmitLine(out: Lines, prevBlank: bool, line: string) returns (out': Lines, prevBlank': bool)
    requires prevBlank == EndsBlank(out)
    ensures out' == Emit(out, line) && prevBlank' == EndsBlank(out')
  {
    EmptyIsBlank();
    out', prevBlank' := out, prevBlank;
    if Blank(line) {
      if prevBlank {
        return;
      }
      prevBlank' := true;
      out' := out' + [""];
      return;
    }
    prevBlank' := false;
    if IsHeader(line) {
      if |out'| > 0 && !Blank(out'[|out'| - 1]) {
        out' := out' + [""];
      }
    }
    out' := out' + [line];
  }

  /** Pass 2. */
  method EmitLines(lines: Lines, skip: set<nat>) returns (out: Lines)
    requires forall i: nat :: i in skip <==> i < |lines| && EmptyHeaderAt(lines, i)
    ensures out == EmitAll(Kept(lines))
  {
    out := [];
    ghost var kept: Lines := [];
    var prevBlank := false;
    var i := 0;
    assert lines[0..] == lines;
    while i < |lines|
      invariant 0 <= i <= |lines|
      invariant kept + Kept(lines[i..]) == Kept(lines)
      invariant out == EmitAll(kept)
      invariant prevBlank == EndsBlank(out)
    {
      KeptFrom(lines, i);
      if i in skip {
        i := i + 1;
        continue;
      }
      var line := TrimBlanks(lines[i]);
      EmitAllSnoc(kept, line);
      AppendMoves(kept, line, Kept(lines[i + 1..]));
      out, prevBlank := EmitLine(out, prevBlank, line);
      kept := kept + [line];
      i := i + 1;
    }
    assert lines[|lines|..] == [];
    assert kept + [] == kept;
  }

  lemma AppendMoves(a: Lines, x: string, b: Lines)
    ensures a + ([x] + b) == (a + [x]) + b
  {
  }

  /** Leading and trailing blank lines. */
  method StripBlank(lines: Lines) returns (out: Lines)
    ensures out == StripTail(StripLead(lines))
  {
    out := lines;
    while |out| > 0 && Blank(out[0])
      invariant StripLead(out) == StripLead(lines)
    {
      out := out[1..];
    }
    while |out| > 0 && Blank(out[|out| - 1])
      invariant StripTail(out) == StripTail(StripLead(lines))
    {
      out := out[..|out| - 1];
    }
  }

  /** formatTOML on the lines of the text. */
  method FormatPasses(lines: Lines) returns (out: Lines)
    ensures out == FormatLines(lines)
  {
    var skip := FindEmptySections(lines);
    out := EmitLines(lines, skip);
    out := StripBlank(out);
  }

  method FormatTOML(raw: string) returns (text: string)
    ensures text == Format(raw)
  {
    var out := FormatPasses(Split(raw, '\n'));
    text := Join(out, '\n') + "\n";
  }

  lemma EmptyIsBlank()
    ensures Blank("") && !IsHeader("")
  {
    TrimTrimmed("");
  }

  // --- Right-trimming is invisible ---

  lemma {:induction false} TrimBlanksSplits(line: string) returns (b: string)
    ensures line == TrimBlanks(line) + b && AllSpace(b) && forall i :: 0 <= i < |b| ==> IsBlankChar(b[i])
    ensures TrimBlanks(line) != [] ==> !IsBlankChar(TrimBlanks(line)[|TrimBlanks(line)| - 1])
  {
    b := [];
    if line != [] && IsBlankChar(line[|line| - 1]) {
      var c := TrimBlanksSplits(line[..|line| - 1]);
      b := c + [line[|line| - 1]];
    }
  }

  lemma TrimBlanksFixed(line: string)
    ensures TrimBlanks(TrimBlanks(line)) == TrimBlanks(line)
  {
    var b := TrimBlanksSplits(line);
  }

  lemma TrimBlanksSpace(line: string)
    ensures TrimSpace(TrimBlanks(line)) == TrimSpace(line)
  {
    var b := TrimBlanksSplits(line);
    assert line == [] + TrimBlanks(line) + b;
    TrimAround([], TrimBlanks(line), b);
  }

  // --- Non-blank lines ---

  function NonBlank(lines: Lines): Lines {
    if lines == [] then []
    else NonBlank(lines[..|lines| - 1]) + (if Blank(lines[|lines| - 1]) then [] else [lines[|lines| - 1]])
  }

  lemma {:induction false} NonBlankConcat(a: Lines, b: Lines)
    ensures NonBlank(a + b) == NonBlank(a) + NonBlank(b)
  {
    if b == [] {
      assert a + b == a;
    } else {
      assert (a + b)[..|a + b| - 1] == a + b[..|b| - 1];
      NonBlankConcat(a, b[..|b| - 1]);
    }
  }

  lemma NonBlankOne(line: string)
    ensures NonBlank([line]) == if Blank(line) then [] else [line]
  {
    assert [line][..0] == [];
  }

  lemma NonBlankSnoc(out: Lines, line: string)
    ensures NonBlank(out + [line]) == NonBlank(out) + if Blank(line) then [] else [line]
  {
    assert (out + [line])[..|out|] == out;
  }

  lemma EmitAddsContent(out: Lines, line: string)
    ensures NonBlank(Emit(out, line)) == NonBlank(out) + if Blank(line) then [] else [line]
  {
    EmptyIsBlank();
    NonBlankSnoc(out, "");
    NonBlankSnoc(out, line);
    if !Blank(line) && IsHeader(line) && out != [] && !EndsBlank(out) {
      NonBlankSnoc(out + [""], line);
      assert out + ["", line] == out + [""] + [line];
    }
  }

  lemma {:induction false} EmitNonBlank(lines: Lines)
    ensures NonBlank(EmitAll(lines)) == NonBlank(lines)
  {
    if lines != [] {
      var n := |lines| - 1;
      EmitNonBlank(lines[..n]);
      EmitAddsContent(EmitAll(lines[..n]), lines[n]);
    }
  }

  lemma {:induction false} StripLeadNonBlank(lines: Lines)
    ensures NonBlank(StripLead(lines)) == NonBlank(lines)
  {
    if lines != [] && Blank(lines[0]) {
      StripLeadNonBlank(lines[1..]);
      NonBlankOne(lines[0]);
      NonBlankConcat([lines[0]], lines[1..]);
      assert lines == [lines[0]] + lines[1..];
    }
  }

  lemma {:induction false} StripTailNonBlank(lines: Lines)
    ensures NonBlank(StripTail(lines)) == NonBlank(lines)
  {
    if lines != [] && Blank(lines[|lines| - 1]) {
      StripTailNonBlank(lines[..|lines| - 1]);
    }
  }

  /** Content: the non-blank lines of the output are exactly the right-trimmed non-blank lines of the
      input, in order, minus the headers of empty sections. */
  lemma FormatKeepsContent(lines: Lines)
    ensures NonBlank(FormatLines(lines)) == NonBlank(Kept(lines))
  {
    EmitNonBlank(Kept(lines));
    StripLeadNonBlank(EmitAll(Kept(lines)));
    StripTailNonBlank(StripLead(EmitAll(Kept(lines))));
  }

  // --- The output's shape ---

  /** Blank lines are empty and not adjacent, lines are right-trimmed, and every header but the first
      line has a blank line in front. */
  ghost predicate Tidy(lines: Lines) {
    && (forall i :: 0 <= i < |lines| ==> TrimBlanks(lines[i]) == lines[i])
    && (forall i :: 0 <= i < |lines| && Blank(lines[i]) ==> lines[i] == "")
    && (forall i :: 0 < i < |lines| ==> !(Blank(lines[i - 1]) && Blank(lines[i])))
    && (forall i :: 0 < i < |lines| && IsHeader(lines[i]) ==> lines[i - 1] == "")
  }

  /** No header is followed only by blank lines, in terms of the non-blank lines. */
  ghost predicate NoEmptySections(content: Lines) {
    forall i :: 0 <= i < |content| && IsHeader(content[i]) ==> i + 1 < |content| && !IsHeader(content[i + 1])
  }

  /** The normal form. */
  ghost predicate NormalForm(lines: Lines) {
    && Tidy(lines)
    && NoEmptySections(NonBlank(lines))
    && (lines != [] ==> !Blank(lines[0]) && !Blank(lines[|lines| - 1]))
  }

  lemma TidySnoc(out: Lines, line: string)
    requires Tidy(out) && TrimBlanks(line) == line
    requires Blank(line) ==> line == "" && !EndsBlank(out)
    requires IsHeader(line) && out != [] ==> out[|out| - 1] == ""
    ensures Tidy(out + [line])
  {
    var all, n := out + [line], |out|;
    assert all[n] == line && (n > 0 ==> all[n - 1] == out[n - 1]);
    forall i | 0 <= i < |all|
      ensures TrimBlanks(all[i]) == all[i] && (Blank(all[i]) ==> all[i] == "")
    {
      if i < n { assert all[i] == out[i]; }
    }
    forall i | 0 < i < |all|
      ensures !(Blank(all[i - 1]) && Blank(all[i])) && (IsHeader(all[i]) ==> all[i - 1] == "")
    {
      if i < n { assert all[i] == out[i] && all[i - 1] == out[i - 1]; }
    }
  }

  lemma EmitTidy(out: Lines, line: string)
    requires Tidy(out) && TrimBlanks(line) == line
    ensures Tidy(Emit(out, line))
  {
    EmptyIsBlank();
    EmptyIsTrimmed();
    if Blank(line) {
      if !EndsBlank(out) {
        TidySnoc(out, "");
      }
    } else if IsHeader(line) && out != [] && !EndsBlank(out) {
      TidySnoc(out, "");
      TidySnoc(out + [""], line);
      assert out + ["", line] == (out + [""]) + [line];
    } else {
      TidySnoc(out, line);
    }
  }

  lemma EmptyIsTrimmed()
    ensures TrimBlanks("") == ""
  {
  }

  lemma {:induction false} EmitAllTidy(lines: Lines)
    requires forall i :: 0 <= i < |lines| ==> TrimBlanks(lines[i]) == lines[i]
    ensures Tidy(EmitAll(lines))
  {
    if lines != [] {
      EmitAllTidy(lines[..|lines| - 1]);
      EmitTidy(EmitAll(lines[..|lines| - 1]), lines[|lines| - 1]);
    }
  }

  lemma {:induction false} KeptTrimmed(lines: Lines)
    ensures forall i :: 0 <= i < |Kept(lines)| ==> TrimBlanks(Kept(lines)[i]) == Kept(lines)[i]
  {
    if lines != [] {
      KeptTrimmed(lines[1..]);
      TrimBlanksFixed(lines[0]);
    }
  }

  lemma {:induction false} StripLeadTidy(lines: Lines)
    requires Tidy(lines)
    ensures Tidy(StripLead(lines)) && (StripLead(lines) != [] ==> !Blank(StripLead(lines)[0]))
  {
    if lines != [] && Blank(lines[0]) {
      assert forall i :: 0 <= i < |lines[1..]| ==> lines[1..][i] == lines[i + 1];
      StripLeadTidy(lines[1..]);
    }
  }

  lemma {:induction false} StripTailTidy(lines: Lines)
    requires Tidy(lines) && (lines != [] ==> !Blank(lines[0]))
    ensures Tidy(StripTail(lines))
    ensures StripTail(lines) != [] ==> !Blank(StripTail(lines)[0]) && !Blank(StripTail(lines)[|StripTail(lines)| - 1])
  {
    if lines != [] && Blank(lines[|lines| - 1]) {
      StripTailTidy(lines[..|lines| - 1]);
    }
  }

  lemma {:induction false} SectionEmptyContent(rest: Lines)
    ensures SectionEmpty(rest) <==> NonBlank(rest) == [] || IsHeader(NonBlank(rest)[0])
  {
    if rest != [] {
      SectionEmptyContent(rest[1..]);
      NonBlankOne(rest[0]);
      NonBlankConcat([rest[0]], rest[1..]);
      assert rest == [rest[0]] + rest[1..];
    }
  }

  lemma TrimBlanksKind(line: string)
    ensures Blank(TrimBlanks(line)) == Blank(line) && IsHeader(TrimBlanks(line)) == IsHeader(line)
  {
    TrimBlanksSpace(line);
  }

  /** After dropping, the next content line is a header only if it was one before. */
  lemma {:induction false} KeptFirstContent(lines: Lines)
    requires !SectionEmpty(lines)
    ensures NonBlank(Kept(lines)) != [] && !IsHeader(NonBlank(Kept(lines))[0])
  {
    TrimBlanksKind(lines[0]);
    NonBlankOne(TrimBlanks(lines[0]));
    NonBlankConcat([TrimBlanks(lines[0])], Kept(lines[1..]));
    if Blank(lines[0]) {
      KeptFirstContent(lines[1..]);
    }
  }

  lemma {:induction false} KeptNoEmpty(lines: Lines)
    ensures NoEmptySections(NonBlank(Kept(lines)))
  {
    if lines != [] {
      KeptNoEmpty(lines[1..]);
      if !EmptyHeaderAt(lines, 0) {
        var line, rest := TrimBlanks(lines[0]), NonBlank(Kept(lines[1..]));
        TrimBlanksKind(lines[0]);
        NonBlankOne(line);
        NonBlankConcat([line], Kept(lines[1..]));
        if IsHeader(line) {
          KeptFirstContent(lines[1..]);
        }
        NoEmptyCons(line, rest);
      }
    }
  }

  lemma NoEmptyCons(line: string, rest: Lines)
    requires NoEmptySections(rest) && (IsHeader(line) ==> rest != [] && !IsHeader(rest[0]))
    ensures NoEmptySections([line] + rest)
  {
    var all := [line] + rest;
    forall i | 0 <= i < |all| && IsHeader(all[i])
      ensures i + 1 < |all| && !IsHeader(all[i + 1])
    {
      if i > 0 { assert all[i] == rest[i - 1]; }
    }
  }

  /** The output is in normal form, whatever the input. */
  lemma FormatIsNormal(lines: Lines)
    ensures NormalForm(FormatLines(lines))
  {
    KeptTrimmed(lines);
    EmitAllTidy(Kept(lines));
    StripLeadTidy(EmitAll(Kept(lines)));
    StripTailTidy(StripLead(EmitAll(Kept(lines))));
    FormatKeepsContent(lines);
    KeptNoEmpty(lines);
  }

  // --- A text in normal form is left alone ---

  lemma {:induction false} SuffixContent(lines: Lines, i: nat)
    requires i < |lines| && NoEmptySections(NonBlank(lines)) && IsHeader(lines[i])
    ensures !SectionEmpty(lines[i + 1..])
  {
    var a, b := lines[..i], lines[i + 1..];
    assert lines == a + ([lines[i]] + b);
    NonBlankConcat(a, [lines[i]] + b);
    NonBlankConcat([lines[i]], b);
    NonBlankOne(lines[i]);
    SectionEmptyContent(b);
    var k := |NonBlank(a)|;
    assert NonBlank(lines)[k] == lines[i];
    if NonBlank(b) != [] {
      assert NonBlank(lines)[k + 1] == NonBlank(b)[0];
    }
  }

  lemma {:induction false} KeptFixed(lines: Lines)
    requires forall i :: 0 <= i < |lines| ==> TrimBlanks(lines[i]) == lines[i]
    requires forall i :: 0 <= i < |lines| ==> !EmptyHeaderAt(lines, i)
    ensures Kept(lines) == lines
  {
    if lines != [] {
      assert !EmptyHeaderAt(lines, 0);
      forall i | 0 <= i < |lines[1..]|
        ensures !EmptyHeaderAt(lines[1..], i)
      {
        assert lines[1..][i + 1..] == lines[i + 2..];
        assert !EmptyHeaderAt(lines, i + 1);
      }
      KeptFixed(lines[1..]);
    }
  }

  lemma TidyLast(out: Lines, line: string)
    requires Tidy(out + [line])
    ensures Tidy(out)
    ensures Blank(line) ==> line == "" && !EndsBlank(out)
    ensures IsHeader(line) && out != [] ==> out[|out| - 1] == ""
  {
    var all, n := out + [line], |out|;
    assert all[n] == line && (n > 0 ==> all[n - 1] == out[n - 1]);
    assert forall i :: 0 <= i < n ==> all[i] == out[i];
  }

  lemma EmitAppends(out: Lines, line: string)
    requires Blank(line) ==> line == "" && !EndsBlank(out)
    requires IsHeader(line) && out != [] ==> out[|out| - 1] == ""
    ensures Emit(out, line) == out + [line]
  {
    EmptyIsBlank();
  }

  lemma {:induction false} EmitFixed(lines: Lines)
    requires Tidy(lines)
    ensures EmitAll(lines) == lines
  {
    if lines != [] {
      var front, line := lines[..|lines| - 1], lines[|lines| - 1];
      assert lines == front + [line];
      TidyLast(front, line);
      EmitFixed(front);
      EmitAllSnoc(front, line);
      EmitAppends(front, line);
    }
  }

  /** Lines that are right-trimmed and hold no empty section are all kept. */
  lemma NoEmptyKept(all: Lines)
    requires forall i :: 0 <= i < |all| ==> TrimBlanks(all[i]) == all[i]
    requires NoEmptySections(NonBlank(all))
    ensures Kept(all) == all
  {
    forall i | 0 <= i < |all|
      ensures !EmptyHeaderAt(all, i)
    {
      if IsHeader(all[i]) { SuffixContent(all, i); }
    }
    KeptFixed(all);
  }

  lemma NormalKept(lines: Lines)
    requires NormalForm(lines)
    ensures Kept(lines + [""]) == lines + [""]
  {
    EmptyIsBlank();
    EmptyIsTrimmed();
    NonBlankSnoc(lines, "");
    NoEmptyKept(lines + [""]);
  }

  lemma StripLastBlank(lines: Lines)
    requires lines != [] ==> !Blank(lines[0]) && !Blank(lines[|lines| - 1])
    ensures StripTail(StripLead(lines + [""])) == lines
  {
    var all := lines + [""];
    EmptyIsBlank();
    if lines == [] {
      assert all[1..] == [];
    } else {
      assert StripLead(all) == all;
      assert all[..|all| - 1] == lines;
    }
  }

  /** Formatting formatted lines, followed by the empty line that the final newline stands for, changes
      nothing. */
  lemma NormalStays(lines: Lines)
    requires NormalForm(lines)
    ensures FormatLines(lines + [""]) == lines
  {
    NormalKept(lines);
    EmptyIsBlank();
    EmitFixed(lines);
    EmitAllSnoc(lines, "");
    StripLastBlank(lines);
  }

  lemma {:induction false} FreeLines(lines: Lines)
    requires AllFree(lines, '\n')
    ensures AllFree(FormatLines(lines), '\n')
  {
    KeptFree(lines);
    EmitFree(Kept(lines));
    StripFree(EmitAll(Kept(lines)));
  }

  lemma {:induction false} KeptFree(lines: Lines)
    requires AllFree(lines, '\n')
    ensures AllFree(Kept(lines), '\n')
  {
    if lines != [] {
      KeptFree(lines[1..]);
      var b := TrimBlanksSplits(lines[0]);
      assert forall i :: 0 <= i < |TrimBlanks(lines[0])| ==> TrimBlanks(lines[0])[i] == lines[0][i];
    }
  }

  lemma {:induction false} EmitFree(lines: Lines)
    requires AllFree(lines, '\n')
    ensures AllFree(EmitAll(lines), '\n')
  {
    if lines != [] {
      EmitFree(lines[..|lines| - 1]);
    }
  }

  lemma {:induction false} StripLeadFree(lines: Lines)
    requires AllFree(lines, '\n')
    ensures AllFree(StripLead(lines), '\n')
  {
    if lines != [] && Blank(lines[0]) {
      StripLeadFree(lines[1..]);
    }
  }

  lemma {:induction false} StripTailFree(lines: Lines)
    requires AllFree(lines, '\n')
    ensures AllFree(StripTail(lines), '\n')
  {
    if lines != [] && Blank(lines[|lines| - 1]) {
      StripTailFree(lines[..|lines| - 1]);
    }
  }

  lemma StripFree(lines: Lines)
    requires AllFree(lines, '\n')
    ensures AllFree(StripTail(StripLead(lines)), '\n')
  {
    StripLeadFree(lines);
    StripTailFree(StripLead(lines));
  }

  lemma {:induction false} JoinNewline(lines: Lines)
    requires lines != []
    ensures Join(lines, '\n') + "\n" == Join(lines + [""], '\n')
  {
    if |lines| == 1 {
      assert (lines + [""])[1..] == [""];
    } else {
      JoinNewline(lines[1..]);
      assert (lines + [""])[1..] == lines[1..] + [""];
      assert Join(lines, '\n') + "\n" == lines[0] + ['\n'] + (Join(lines[1..], '\n') + "\n");
    }
  }

  /** The lines of a formatted text. */
  lemma FormattedLines(raw: string)
    ensures Split(Format(raw), '\n') == if FormatLines(Split(raw, '\n')) == [] then ["", ""]
                                        else FormatLines(Split(raw, '\n')) + [""]
  {
    var out := FormatLines(Split(raw, '\n'));
    SplitFree(raw, '\n');
    FreeLines(Split(raw, '\n'));
    if out == [] {
      SplitAt("", "", '\n');
      assert "" + ['\n'] + "" == Format(raw);
      assert Split("", '\n') == [""];
    } else {
      JoinNewline(out);
      SplitJoin(out + [""], '\n');
    }
  }

  lemma TwoBlanks()
    ensures FormatLines(["", ""]) == []
  {
    EmptyIsBlank();
    assert TrimBlanks("") == "";
    assert ["", ""][1..] == [""];
    assert Kept([""]) == [""] by { assert [""][1..] == []; }
    assert Kept(["", ""]) == ["", ""];
    assert ["", ""][..1] == [""] && [""][..0] == [];
    assert EmitAll([""]) == [""];
    assert EmitAll(["", ""]) == [""];
    assert StripLead([""]) == StripLead([""][1..]) == [];
  }

  /** formatTOML is idempotent, on every text. */
  lemma FormatIdempotent(raw: string)
    ensures Format(Format(raw)) == Format(raw)
  {
    var out := FormatLines(Split(raw, '\n'));
    FormattedLines(raw);
    FormatIsNormal(Split(raw, '\n'));
    if out == [] {
      TwoBlanks();
    } else {
      NormalStays(out);
    }
  }
}
