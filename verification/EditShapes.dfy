/** config/config.go: what the line matchers accept, and where an edit changes a file, in terms of the text. */
module EditShapes {
  import opened Text
  import opened TomlLine
  import opened ConfigSections

  // --- What the matchers accept ---

  /** Behind the header comes nothing, or a blank, a tab or a comment sign. */
  predicate HeaderRest(rest: string) {
    rest == "" || rest[0] == ' ' || rest[0] == '\t' || rest[0] == '#'
  }

  lemma TrimBehind(t: string, rest: string) returns (r: string)
    requires t != "" && Trimmed(t)
    ensures TrimSpace(t + rest) == t + r && (r != "" ==> rest != "" && r[0] == rest[0])
    ensures rest != "" && !IsSpace(rest[0]) ==> r != ""
  {
    r := TrimRight(rest);
    var y := TrimRightSplits(rest);
    assert [] + (t + r) + y == t + rest;
    TrimOver([], t + r, y);
    assert r == "" ==> rest == y;
  }

  /** A line matches a header if it is the header, with white space around it and perhaps a blank, a tab
      or a comment sign and anything behind it ... */
  lemma HeaderLineMatches(a: string, header: string, rest: string, b: string)
    requires ProperHeader(header) && AllSpace(a) && AllSpace(b) && HeaderRest(rest)
    ensures MatchHeader(a + (header + rest) + b, header)
  {
    TrimAround(a, header + rest, b);
    var r := TrimBehind(header, rest);
    assert TrimSpace(a + (header + rest) + b) == header + r;
  }

  /** ... and only then. */
  lemma HeaderLineShape(line: string, header: string) returns (a: string, rest: string, b: string)
    requires MatchHeader(line, header)
    ensures line == a + (header + rest) + b && AllSpace(a) && AllSpace(b) && HeaderRest(rest)
  {
    a, b := TrimSplits(line);
    var t := TrimSpace(line);
    rest := t[|header|..];
    assert t == header + rest;
  }

  lemma MatchHeaderIff(line: string, header: string)
    requires ProperHeader(header)
    ensures MatchHeader(line, header)
       <==> exists a, rest, b :: line == a + (header + rest) + b && AllSpace(a) && AllSpace(b) && HeaderRest(rest)
  {
    if MatchHeader(line, header) {
      var a, rest, b := HeaderLineShape(line, header);
    }
    forall a, rest, b | line == a + (header + rest) + b && AllSpace(a) && AllSpace(b) && HeaderRest(rest)
      ensures MatchHeader(line, header)
    {
      HeaderLineMatches(a, header, rest, b);
    }
  }

  /** A line is a header of some section exactly if its first character that is no white space is '['. */
  lemma IsHeaderIff(line: string)
    ensures IsHeader(line) <==> exists a, rest :: line == a + ("[" + rest) && AllSpace(a)
  {
    if IsHeader(line) {
      var a, b := TrimSplits(line);
      var t := TrimSpace(line);
      assert line == a + ("[" + (t[1..] + b));
    }
    forall a, rest | line == a + ("[" + rest) && AllSpace(a)
      ensures IsHeader(line)
    {
      var r := TrimBehind("[", rest);
      TrimAround(a, "[" + rest, "");
      assert a + ("[" + rest) + "" == line;
    }
  }

  lemma BlankIff(line: string)
    ensures Blank(line) <==> AllSpace(line)
  {
    var a, b := TrimSplits(line);
    assert TrimSpace(line) != "" ==> line[|a|] == TrimSpace(line)[0];
  }

  /** A line sets a key exactly if it is the key and an '=' with nothing but white space around them, and
      anything behind. */
  lemma MatchKeyIff(line: string, key: string)
    requires ProperKey(key)
    ensures MatchKey(line, key)
       <==> exists a, gap, v :: line == a + key + gap + "=" + v && AllSpace(a) && AllSpace(gap)
  {
    if MatchKey(line, key) {
      var a, gap, v := KeyLineShape(line, key);
    }
    forall a, gap, v | line == a + key + gap + "=" + v && AllSpace(a) && AllSpace(gap)
      ensures MatchKey(line, key)
    {
      KeyMatches(a, key, gap, v);
    }
  }

  lemma KeyLineShape(line: string, key: string) returns (a: string, gap: string, v: string)
    requires MatchKey(line, key)
    ensures line == a + key + gap + "=" + v && AllSpace(a) && AllSpace(gap)
  {
    var y: string;
    a, y := TrimSplits(line);
    var rest := TrimSpace(line)[|key|..];
    assert TrimSpace(line) == key + rest;
    var q: string;
    gap, q := TrimSplits(rest);
    var w := TrimSpace(rest)[1..];
    assert TrimSpace(rest) == "=" + w;
    v := w + q + y;
    Regroup(a, key, gap, w, q, y);
  }

  lemma Regroup(a: string, key: string, gap: string, w: string, q: string, y: string)
    ensures a + (key + (gap + ("=" + w) + q)) + y == a + key + gap + "=" + (w + q + y)
  {
  }

  // --- Where an edit changes the lines ---

  predicate NoKey(lines: Lines, key: string) {
    forall i :: 0 <= i < |lines| ==> !MatchKey(lines[i], key)
  }

  /** One line of the key is rewritten, or one is added. */
  predicate OneLineEdit(was: Lines, now: Lines, key: string, raw: string) {
    (|was| == 1 && MatchKey(was[0], key) && now == [ReplaceValue(was[0], key, raw)])
    || (was == [] && now == [KeyLine(key, raw)])
  }

  lemma {:induction false} UpsertShape(body: Lines, key: string, raw: string)
      returns (front: Lines, was: Lines, now: Lines, behind: Lines)
    ensures body == front + was + behind && UpsertBody(body, key, raw) == front + now + behind
    ensures NoKey(front, key) && OneLineEdit(was, now, key, raw) && (was == [] ==> behind == [])
  {
    if body == [] {
      front, was, now, behind := [], [], [KeyLine(key, raw)], [];
    } else if MatchKey(body[0], key) {
      front, was, now, behind := [], [body[0]], [ReplaceValue(body[0], key, raw)], body[1..];
    } else {
      front, was, now, behind := UpsertShape(body[1..], key, raw);
      Cons(body[0], front, was, behind);
      Cons(body[0], front, now, behind);
      front := [body[0]] + front;
    }
  }

  lemma Cons(line: string, front: Lines, mid: Lines, behind: Lines)
    ensures [line] + (front + mid + behind) == [line] + front + mid + behind
  {
  }

  /** The file around the place of an edit: in front of it there is the first line that matches the
      header, and no header and no line of the key between that and the edit. */
  predicate InFirstSection(before: Lines, header: string, key: string, pre: Lines, hdr: string, front: Lines) {
    before == pre + [hdr] + front && NoMatch(pre, header) && MatchHeader(hdr, header)
    && NoHeaders(front) && NoKey(front, key)
  }

  /** A patch of a file that has the section: all lines stay but one of the key's, which is rewritten, or
      one is added as the last line of the section. */
  lemma PatchShape(lines: Lines, header: string, key: string, raw: string)
      returns (pre: Lines, hdr: string, front: Lines, was: Lines, now: Lines, behind: Lines)
    requires !NoMatch(lines, header)
    ensures InFirstSection(pre + [hdr] + front, header, key, pre, hdr, front) && OneLineEdit(was, now, key, raw)
    ensures lines == pre + [hdr] + front + was + behind
    ensures PatchSection(lines, header, key, raw) == pre + [hdr] + front + now + behind
    ensures was == [] ==> AtHeader(behind)
  {
    var from := FromFirst(lines, header);
    MatchCuts(lines, header);
    pre, hdr := Preamble(lines, header), from[0];
    var body, rest := Top(from[1..]), Rest(from[1..]);
    TopSplits(from[1..]);
    var b: Lines;
    front, was, now, b := UpsertShape(body, key, raw);
    behind := b + rest;
    NoHeadersFront(front, was, b);
    PutTogether(pre, hdr, front, was, b, rest);
    PutTogether(pre, hdr, front, now, b, rest);
    if was == [] {
      assert behind == rest;
    }
  }

  lemma MatchCuts(lines: Lines, header: string)
    requires !NoMatch(lines, header)
    ensures var from := FromFirst(lines, header);
            from != [] && lines == Preamble(lines, header) + ([from[0]] + from[1..])
            && NoMatch(Preamble(lines, header), header) && MatchHeader(from[0], header)
  {
    PreambleSplits(lines, header);
    assert FromFirst(lines, header) == [] ==> Preamble(lines, header) == lines;
  }

  lemma NoHeadersFront(front: Lines, mid: Lines, behind: Lines)
    requires NoHeaders(front + mid + behind)
    ensures NoHeaders(front)
  {
    forall i | 0 <= i < |front|
      ensures !IsHeader(front[i])
    {
      assert (front + mid + behind)[i] == front[i];
    }
  }

  lemma PutTogether(pre: Lines, hdr: string, front: Lines, mid: Lines, b: Lines, rest: Lines)
    ensures pre + ([hdr] + (front + mid + b + rest)) == pre + [hdr] + front + mid + (b + rest)
    ensures Doc(pre, hdr, front + mid + b + rest) == pre + [hdr] + front + mid + (b + rest)
  {
  }

  /** A top-level patch: all lines stay but the first one of the key in front of the first header, which is
      rewritten, or one is added in front of that header. */
  lemma PatchTopShape(lines: Lines, key: string, raw: string)
      returns (front: Lines, was: Lines, now: Lines, behind: Lines)
    ensures NoHeaders(front) && NoKey(front, key) && OneLineEdit(was, now, key, raw)
    ensures lines == front + was + behind && PatchTop(lines, key, raw) == front + now + behind
    ensures was == [] ==> AtHeader(behind)
  {
    var top, rest := Top(lines), Rest(lines);
    TopSplits(lines);
    var b: Lines;
    front, was, now, b := UpsertShape(top, key, raw);
    behind := b + rest;
    NoHeadersFront(front, was, b);
    ThreeLines(front + was, b, rest);
    ThreeLines(front + now, b, rest);
    if was == [] {
      assert behind == rest;
    }
  }

  /** A patch of a file without the section adds it in front of the first header, and changes nothing
      else. */
  lemma PatchCreatesShape(lines: Lines, header: string, key: string, raw: string)
    requires NoMatch(lines, header)
    ensures lines == Top(lines) + Rest(lines) && NoHeaders(Top(lines)) && AtHeader(Rest(lines))
    ensures PatchSection(lines, header, key, raw) == Top(lines) + ["", header, KeyLine(key, raw)] + Rest(lines)
  {
    TopSplits(lines);
    assert lines + [] == lines;
    PreambleOver(lines, [], header);
    ThreeLines(Top(lines), ["", header, KeyLine(key, raw)], Rest(lines));
  }

  lemma ThreeLines(a: Lines, b: Lines, c: Lines)
    ensures a + (b + c) == a + b + c
  {
  }

  // --- Headers ---

  /** The header lines of a file, in order. */
  function HeadersOf(lines: Lines): Lines {
    if lines == [] then []
    else (if IsHeader(lines[0]) then [lines[0]] else []) + HeadersOf(lines[1..])
  }

  lemma {:induction false} HeadersConcat(a: Lines, b: Lines)
    ensures HeadersOf(a + b) == HeadersOf(a) + HeadersOf(b)
  {
    if a == [] {
      assert a + b == b;
    } else {
      assert (a + b)[1..] == a[1..] + b;
      HeadersConcat(a[1..], b);
    }
  }

  lemma EditKeepsHeaders(a: Lines, was: Lines, now: Lines, b: Lines, key: string, raw: string)
    requires OneLineEdit(was, now, key, raw) && ProperKey(key) && ProperValue(raw)
    ensures HeadersOf(a + was + b) == HeadersOf(a + now + b)
  {
    HeadersConcat(a + was, b);
    HeadersConcat(a, was);
    HeadersConcat(a + now, b);
    HeadersConcat(a, now);
    if was == [] {
      FreshLine(key, raw);
    } else {
      ReplacedReads(was[0], key, raw);
    }
    assert HeadersOf(was) == [] && HeadersOf(now) == [];
  }

  /** A file that has the header on some line, in any of the forms above, keeps exactly its header lines
      when the section is patched. */
  lemma PatchAddsNoHeader(lines: Lines, i: nat, a: string, rest: string, b: string, header: string, key: string,
                          raw: string)
    requires ProperHeader(header) && AllSpace(a) && AllSpace(b) && HeaderRest(rest)
    requires ProperKey(key) && ProperValue(raw)
    requires i < |lines| && lines[i] == a + (header + rest) + b
    ensures HeadersOf(PatchSection(lines, header, key, raw)) == HeadersOf(lines)
  {
    HeaderLineMatches(a, header, rest, b);
    var pre, hdr, front, was, now, behind := PatchShape(lines, header, key, raw);
    EditKeepsHeaders(pre + [hdr] + front, was, now, behind, key, raw);
  }
}
