/** config/config.go: formatTOML's two passes and the trimming at both ends, against a layout in one pass. */
module FormatLayout {
  import opened Text
  import opened TomlLine
  import opened ConfigSections
  import opened FormatToml
  import opened EditShapes

  /** The content lines one after the other. Between two of them stands one empty line if any blank line
      stood there, or if the second is a header, and nothing otherwise; around them stands nothing. */
  function Layout(lines: Lines, started: bool, gap: bool): Lines {
    if lines == [] then []
    else if Blank(lines[0]) then Layout(lines[1..], started, true)
    else
      (if started && (gap || IsHeader(lines[0])) then [""] else []) + [lines[0]] + Layout(lines[1..], true, false)
  }

  predicate AllBlank(lines: Lines) {
    forall i :: 0 <= i < |lines| ==> Blank(lines[i])
  }

  /** What a line adds behind these. */
  function Added(lines: Lines, started: bool, gap: bool, line: string): Lines {
    if Blank(line) then []
    else
      var sep := (started || !AllBlank(lines)) && (IsHeader(line) || if lines == [] then gap else EndsBlank(lines));
      (if sep then [""] else []) + [line]
  }

  lemma {:induction false} LayoutSnoc(lines: Lines, started: bool, gap: bool, line: string)
    ensures Layout(lines + [line], started, gap) == Layout(lines, started, gap) + Added(lines, started, gap, line)
  {
    if lines == [] {
      assert lines + [line] == [line];
    } else {
      var rest := lines[1..];
      assert (lines + [line])[1..] == rest + [line];
      var more, gap' := started || !Blank(lines[0]), Blank(lines[0]);
      LayoutSnoc(rest, more, gap', line);
      AddedBehind(lines, started, gap, line);
      if !Blank(lines[0]) {
        var head := (if started && (gap || IsHeader(lines[0])) then [""] else []) + [lines[0]];
        Regroup(head, Layout(rest, true, false), Added(rest, true, false, line));
      }
    }
  }

  lemma AddedBehind(lines: Lines, started: bool, gap: bool, line: string)
    requires lines != []
    ensures Added(lines, started, gap, line) == Added(lines[1..], started || !Blank(lines[0]), Blank(lines[0]), line)
  {
    assert AllBlank(lines) <==> Blank(lines[0]) && AllBlank(lines[1..]) by {
      assert lines == [lines[0]] + lines[1..];
    }
  }

  lemma Regroup(a: Lines, b: Lines, c: Lines)
    ensures a + (b + c) == (a + b) + c
  {
  }

  // --- What is left out ---

  /** The first n lines are white space, and behind them comes a header or nothing. */
  predicate WhiteUpTo(rest: Lines, n: nat) {
    n <= |rest| && (forall j :: 0 <= j < n ==> AllSpace(rest[j])) && (n < |rest| ==> IsHeader(rest[n]))
  }

  lemma {:induction false} EmptyIfWhite(rest: Lines, n: nat)
    requires WhiteUpTo(rest, n)
    ensures SectionEmpty(rest)
  {
    if n > 0 {
      BlankIff(rest[0]);
      EmptyIfWhite(rest[1..], n - 1);
    }
  }

  lemma {:induction false} WhiteIfEmpty(rest: Lines) returns (n: nat)
    requires SectionEmpty(rest)
    ensures WhiteUpTo(rest, n)
  {
    if rest == [] || IsHeader(rest[0]) {
      n := 0;
    } else {
      BlankIff(rest[0]);
      var k := WhiteIfEmpty(rest[1..]);
      n := k + 1;
    }
  }

  /** A section is empty exactly if nothing but white space stands between its header and the next header
      or the end of the file. */
  lemma SectionEmptyIff(rest: Lines)
    ensures SectionEmpty(rest) <==> exists n: nat :: WhiteUpTo(rest, n)
  {
    if SectionEmpty(rest) {
      var n := WhiteIfEmpty(rest);
    }
    forall n: nat | WhiteUpTo(rest, n)
      ensures SectionEmpty(rest)
    {
      EmptyIfWhite(rest, n);
    }
  }

  // --- The passes ---

  lemma {:induction false} StripLeadOver(a: Lines, b: Lines)
    ensures StripLead(a + b) == if AllBlank(a) then StripLead(b) else StripLead(a) + b
  {
    if a == [] {
      assert a + b == b;
    } else {
      assert (a + b)[1..] == a[1..] + b;
      StripLeadOver(a[1..], b);
      assert a == [a[0]] + a[1..];
    }
  }

  lemma {:induction false} StripLeadAllBlank(a: Lines)
    requires AllBlank(a)
    ensures StripLead(a) == []
  {
    if a != [] {
      StripLeadAllBlank(a[1..]);
    }
  }

  /** How the output of the second pass relates to the layout so far: an empty line may still stand at
      its end, and blank lines at its front. */
  ghost predicate PassIs(kept: Lines, out: Lines) {
    && (AllBlank(out) <==> AllBlank(kept))
    && (EndsBlank(out) <==> EndsBlank(kept))
    && StripLead(out) == Layout(kept, false, false) + if !AllBlank(kept) && EndsBlank(kept) then [""] else []
  }

  lemma BlankAdded(kept: Lines, out: Lines, line: string)
    requires PassIs(kept, out) && Blank(line) && !EndsBlank(out)
    ensures StripLead(out + [""]) == Layout(kept, false, false) + if AllBlank(kept) then [] else [""]
  {
    EmptyIsBlank();
    StripLeadOver(out, [""]);
    if AllBlank(kept) {
      StripLeadAllBlank(out);
      StripLeadAllBlank([""]);
    } else {
      assert Layout(kept, false, false) + [] == Layout(kept, false, false);
    }
  }

  lemma EmitBlank(kept: Lines, out: Lines, line: string)
    requires PassIs(kept, out) && Blank(line)
    ensures PassIs(kept + [line], Emit(out, line))
  {
    EmptyIsBlank();
    LayoutSnoc(kept, false, false, line);
    assert Layout(kept, false, false) + [] == Layout(kept, false, false);
    AllBlankSnoc(kept, line);
    if !EndsBlank(out) {
      AllBlankSnoc(out, "");
      BlankAdded(kept, out, line);
    }
  }

  lemma AllBlankSnoc(lines: Lines, line: string)
    ensures AllBlank(lines + [line]) <==> AllBlank(lines) && Blank(line)
  {
    assert (lines + [line])[|lines|] == line;
    assert forall i :: 0 <= i < |lines| ==> (lines + [line])[i] == lines[i];
  }

  lemma FirstContent(kept: Lines, out: Lines, line: string)
    requires PassIs(kept, out) && !Blank(line) && AllBlank(kept)
    ensures Emit(out, line) == out + [line] && StripLead(out + [line]) == [line]
    ensures Layout(kept + [line], false, false) == [line]
  {
    StripLeadAllBlank(out);
    StripLeadOver(out, [line]);
    LayoutSnoc(kept, false, false, line);
    assert Layout(kept, false, false) + [] == Layout(kept, false, false);
    assert Layout(kept, false, false) == [] && [] + ([] + [line]) == [line];
  }

  lemma MoreContent(kept: Lines, out: Lines, line: string)
    requires PassIs(kept, out) && !Blank(line) && !AllBlank(kept)
    ensures StripLead(Emit(out, line)) == Layout(kept + [line], false, false)
  {
    var l := Layout(kept, false, false);
    LayoutSnoc(kept, false, false, line);
    assert l + [] == l && l + [""] + [line] == l + ([""] + [line]) && [] + [line] == [line];
    if IsHeader(line) && !EndsBlank(out) {
      StripLeadOver(out, ["", line]);
      assert [""] + [line] == ["", line];
    } else {
      StripLeadOver(out, [line]);
    }
  }

  lemma EmitContent(kept: Lines, out: Lines, line: string)
    requires PassIs(kept, out) && !Blank(line)
    ensures PassIs(kept + [line], Emit(out, line))
  {
    EmptyIsBlank();
    AllBlankSnoc(kept, line);
    AllBlankSnoc(out, line);
    AllBlankSnoc(out + [""], line);
    assert out + ["", line] == out + [""] + [line];
    var l := Layout(kept + [line], false, false);
    assert l + [] == l;
    if AllBlank(kept) {
      FirstContent(kept, out, line);
    } else {
      MoreContent(kept, out, line);
    }
  }

  lemma {:induction false} PassLayout(kept: Lines)
    ensures PassIs(kept, EmitAll(kept))
  {
    if kept != [] {
      var front, line := kept[..|kept| - 1], kept[|kept| - 1];
      assert kept == front + [line];
      PassLayout(front);
      EmitAllSnoc(front, line);
      if Blank(line) {
        EmitBlank(front, EmitAll(front), line);
      } else {
        EmitContent(front, EmitAll(front), line);
      }
    }
  }

  lemma {:induction false} LayoutEnds(lines: Lines, started: bool, gap: bool)
    ensures Layout(lines, started, gap) != [] ==>
              !Blank(Layout(lines, started, gap)[|Layout(lines, started, gap)| - 1])
  {
    if lines != [] {
      LayoutEnds(lines[1..], started || !Blank(lines[0]), Blank(lines[0]));
    }
  }

  /** For every file: what the formatter writes is the layout of the lines it keeps. */
  lemma FormatIsLayout(lines: Lines)
    ensures FormatLines(lines) == Layout(Kept(lines), false, false)
  {
    var kept := Kept(lines);
    PassLayout(kept);
    LayoutEnds(kept, false, false);
    StripEnd(Layout(kept, false, false));
    assert Layout(kept, false, false) + [] == Layout(kept, false, false);
  }

  lemma StripEnd(lines: Lines)
    requires lines != [] ==> !Blank(lines[|lines| - 1])
    ensures StripTail(lines) == lines && StripTail(lines + [""]) == lines
  {
    EmptyIsBlank();
    assert (lines + [""])[..|lines + [""]| - 1] == lines;
  }
}
