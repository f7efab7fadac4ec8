/** config/config.go: cutting a file, or part of one, at every line that matches one array header,
    which gives a preamble and one group of lines for each such header, and nothing is left over when
    they are put together again. */
module RawGroups {
  import opened SeqFacts
  import opened Text
  import opened TomlLine
  import opened ConfigSections

  /** A group is a matching line with everything up to the next one. */
  predicate Shaped(group: Lines, header: string) {
    group != [] && MatchHeader(group[0], header) && NoMatch(group[1..], header)
  }

  predicate AllShaped(groups: seq<Lines>, header: string) {
    forall i :: 0 <= i < |groups| ==> Shaped(groups[i], header)
  }

  function Groups(lines: Lines, header: string): seq<Lines>
    decreases |lines|
  {
    var rest := FromFirst(lines, header);
    if rest == [] then []
    else [[rest[0]] + Preamble(rest[1..], header)] + Groups(FromFirst(rest[1..], header), header)
  }

  function Flat(groups: seq<Lines>): Lines {
    if groups == [] then [] else groups[0] + Flat(groups[1..])
  }

  // --- The cut is the only one ---

  lemma FlatHead(groups: seq<Lines>, header: string)
    requires AllShaped(groups, header) && groups != []
    ensures Flat(groups) != [] && MatchHeader(Flat(groups)[0], header)
  {
    assert Shaped(groups[0], header);
  }

  lemma GroupsStep(pre: Lines, hdr: string, body: Lines, rest: Lines, header: string)
    requires NoMatch(pre, header) && MatchHeader(hdr, header) && NoMatch(body, header)
    requires rest != [] ==> MatchHeader(rest[0], header)
    ensures Groups(pre + ([hdr] + (body + rest)), header) == [[hdr] + body] + Groups(rest, header)
  {
    var tail := [hdr] + (body + rest);
    PreambleOver(pre, tail, header);
    PreambleOver(body, rest, header);
    assert tail[1..] == body + rest;
  }

  lemma PreambleOfFlat(pre: Lines, groups: seq<Lines>, header: string)
    requires NoMatch(pre, header) && AllShaped(groups, header)
    ensures Preamble(pre + Flat(groups), header) == pre
  {
    if groups != [] { FlatHead(groups, header); }
    PreambleOver(pre, Flat(groups), header);
  }

  /** Gluing groups together and cutting again gives the same groups. */
  lemma {:induction false} GroupsOfFlat(pre: Lines, groups: seq<Lines>, header: string)
    requires NoMatch(pre, header) && AllShaped(groups, header)
    ensures Groups(pre + Flat(groups), header) == groups
    decreases groups
  {
    if groups == [] {
      PreambleOver(pre, [], header);
    } else {
      var g, rest := groups[0], groups[1..];
      assert Shaped(g, header) && AllShaped(rest, header);
      if rest != [] { FlatHead(rest, header); }
      GroupsStep(pre, g[0], g[1..], Flat(rest), header);
      GroupsOfFlat([], rest, header);
      assert [] + Flat(rest) == Flat(rest);
      assert g == [g[0]] + g[1..];
      Assoc([g[0]], g[1..], Flat(rest));
    }
  }

  /** Cutting and gluing gives the lines back, and every group is shaped like one. */
  lemma {:induction false} GroupsCover(lines: Lines, header: string)
    ensures lines == Preamble(lines, header) + Flat(Groups(lines, header))
    ensures AllShaped(Groups(lines, header), header)
    ensures NoMatch(Preamble(lines, header), header)
    decreases |lines|
  {
    PreambleSplits(lines, header);
    var tail := FromFirst(lines, header);
    if tail != [] {
      var body, rest := Preamble(tail[1..], header), FromFirst(tail[1..], header);
      PreambleSplits(tail[1..], header);
      GroupsCover(rest, header);
      PreambleOver([], rest, header);
      assert [] + rest == rest && [] + Flat(Groups(rest, header)) == Flat(Groups(rest, header));
      assert tail == [tail[0]] + tail[1..];
      Assoc([tail[0]], body, rest);
      FlatCons([tail[0]] + body, Groups(rest, header));
      assert ([tail[0]] + body)[1..] == body;
    }
  }

  lemma FlatCons(g: Lines, groups: seq<Lines>)
    ensures Flat([g] + groups) == g + Flat(groups)
  {
    assert ([g] + groups)[1..] == groups;
  }

  // --- Exchanging one group ---

  /** The lines with group i exchanged. */
  function Rebuilt(lines: Lines, header: string, i: nat, group: Lines): Lines
    requires i < |Groups(lines, header)|
  {
    Preamble(lines, header) + Flat(Groups(lines, header)[i := group])
  }

  /** How many lines the first i groups have. */
  function LinesBefore(groups: seq<Lines>, i: nat): nat {
    if i == 0 || groups == [] then 0 else |groups[0]| + LinesBefore(groups[1..], i - 1)
  }

  /** Where group i starts. */
  function StartOf(lines: Lines, header: string, i: nat): nat {
    |Preamble(lines, header)| + LinesBefore(Groups(lines, header), i)
  }

  lemma RebuiltGroups(lines: Lines, header: string, i: nat, group: Lines)
    requires i < |Groups(lines, header)| && Shaped(group, header)
    ensures Groups(Rebuilt(lines, header, i, group), header) == Groups(lines, header)[i := group]
    ensures Preamble(Rebuilt(lines, header, i, group), header) == Preamble(lines, header)
  {
    GroupsCover(lines, header);
    GroupsOfFlat(Preamble(lines, header), Groups(lines, header)[i := group], header);
    PreambleOfFlat(Preamble(lines, header), Groups(lines, header)[i := group], header);
  }

  lemma {:induction false} FlatCut(groups: seq<Lines>, i: nat, group: Lines, header: string)
      returns (before: Lines, behind: Lines)
    requires i < |groups| && AllShaped(groups, header)
    ensures Flat(groups) == before + (groups[i] + behind) && Flat(groups[i := group]) == before + (group + behind)
    ensures |before| == LinesBefore(groups, i) && (behind != [] ==> MatchHeader(behind[0], header))
  {
    var g, rest := groups[0], groups[1..];
    assert Shaped(g, header) && AllShaped(rest, header);
    if i == 0 {
      before, behind := [], Flat(rest);
      if rest != [] { FlatHead(rest, header); }
      assert groups[0 := group] == [group] + rest;
      FlatCons(group, rest);
      assert [] + (g + behind) == g + behind && [] + (group + behind) == group + behind;
    } else {
      var b, c := FlatCut(rest, i - 1, group, header);
      before, behind := g + b, c;
      Assoc(g, b, rest[i - 1] + c);
      Assoc(g, b, group + c);
      assert groups[i := group] == [g] + rest[i - 1 := group];
      FlatCons(g, rest[i - 1 := group]);
    }
  }

  /** The lines around group i, before and after the exchange. */
  lemma Parts(lines: Lines, header: string, i: nat, group: Lines)
      returns (pre: Lines, before: Lines, behind: Lines)
    requires i < |Groups(lines, header)|
    ensures lines == pre + (before + (Groups(lines, header)[i] + behind))
    ensures Rebuilt(lines, header, i, group) == pre + (before + (group + behind))
    ensures StartOf(lines, header, i) == |pre| + |before|
    ensures Shaped(Groups(lines, header)[i], header) && (behind != [] ==> MatchHeader(behind[0], header))
  {
    GroupsCover(lines, header);
    pre := Preamble(lines, header);
    before, behind := FlatCut(Groups(lines, header), i, group, header);
  }
}
