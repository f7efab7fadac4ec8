/** config/config.go: the comment that replacing a value keeps, against the comment TOML reads in the line. */
module TomlComments {
  import opened Text
  import opened TomlLine

  /** TOML's strings, on one line: basic ones in double quotes, with escapes, literal ones in single
      quotes, in which nothing is special, and both with three quotes on either side. */
  datatype Lex = Plain | Basic | Literal | MultiBasic | MultiLiteral

  predicate Triple(s: string, q: char) {
    |s| >= 3 && s[0] == q && s[1] == q && s[2] == q
  }

  /** The quotes that close a string with three quotes: up to two more in front belong to its text. */
  function Closing(s: string, q: char): (n: nat)
    requires Triple(s, q)
    ensures 3 <= n <= |s|
  {
    if |s| > 3 && s[3] == q then (if |s| > 4 && s[4] == q then 5 else 4) else 3
  }

  /** One lexical step: how many characters it takes, and the state behind it. */
  function LexStep(s: string, st: Lex): (r: (nat, Lex))
    requires s != ""
    ensures 0 < r.0 <= |s|
  {
    var escape := if |s| > 1 then 2 else 1;
    match st
    case Plain =>
      if Triple(s, '"') then (3, MultiBasic)
      else if Triple(s, '\'') then (3, MultiLiteral)
      else (1, if s[0] == '"' then Basic else if s[0] == '\'' then Literal else Plain)
    case Basic => if s[0] == '\\' then (escape, Basic) else (1, if s[0] == '"' then Plain else Basic)
    case Literal => (1, if s[0] == '\'' then Plain else Literal)
    case MultiBasic =>
      if s[0] == '\\' then (escape, MultiBasic)
      else if Triple(s, '"') then (Closing(s, '"'), Plain)
      else (1, MultiBasic)
    case MultiLiteral => if Triple(s, '\'') then (Closing(s, '\''), Plain) else (1, MultiLiteral)
  }

  /** Where TOML's comment starts, or |s|. */
  function TomlCommentAt(s: string, st: Lex): (i: nat)
    ensures i <= |s|
    ensures i < |s| ==> s[i] == '#'
  {
    if s == [] then 0
    else if st.Plain? && s[0] == '#' then 0
    else
      var (n, next) := LexStep(s, st);
      n + TomlCommentAt(s[n..], next)
  }

  /** The comment of the line, trimmed, as TOML reads it. */
  function TomlComment(line: string): string {
    TrimSpace(line[TomlCommentAt(line, Plain)..])
  }

  /** The scanner takes itself to be inside double quotes behind the first i characters. */
  predicate Quoted(line: string, i: nat)
    requires i <= |line|
  {
    After(line[..i], OUTSIDE) != OUTSIDE
  }

  /** Counting double quotes as the scanner does: every '#' inside one of TOML's strings, that is in
      front of the comment, stands inside them, and the comment itself, if there is one, outside. */
  ghost predicate QuotesTell(line: string) {
    var at := TomlCommentAt(line, Plain);
    && (forall i :: 0 <= i < at && line[i] == '#' ==> Quoted(line, i))
    && (at < |line| ==> !Quoted(line, at))
  }

  lemma {:induction false} EscapedIsQuoted(s: string, st: Scan)
    requires st.escaped ==> st.inQuote
    ensures After(s, st).escaped ==> After(s, st).inQuote
  {
    if s != [] {
      EscapedIsQuoted(s[1..], Next(st, s[0]));
    }
  }

  /** The scanner stops at the first '#' that it finds outside. */
  lemma {:induction false} StopsOutside(s: string, st: Scan, i: nat)
    requires i <= CommentAt(s, st) && i < |s| && s[i] == '#'
    ensures i == CommentAt(s, st) <==> StartsComment(After(s[..i], st), '#')
  {
    if i > 0 {
      assert s[..i][1..] == s[1..][..i - 1];
      StopsOutside(s[1..], Next(st, s[0]), i - 1);
    }
  }

  lemma QuotedStops(line: string, i: nat)
    requires i <= CommentAt(line, OUTSIDE) && i < |line| && line[i] == '#'
    ensures i == CommentAt(line, OUTSIDE) <==> !Quoted(line, i)
  {
    StopsOutside(line, OUTSIDE, i);
    EscapedIsQuoted(line[..i], OUTSIDE);
  }

  lemma SamePlaceIff(line: string)
    ensures CommentAt(line, OUTSIDE) == TomlCommentAt(line, Plain) <==> QuotesTell(line)
  {
    var at, c := TomlCommentAt(line, Plain), CommentAt(line, OUTSIDE);
    if c < at {
      QuotedStops(line, c);
    } else if at < |line| {
      QuotedStops(line, at);
    }
    forall i | 0 <= i < at && i < c && line[i] == '#'
      ensures Quoted(line, i)
    {
      QuotedStops(line, i);
    }
  }

  lemma {:induction false} TrimRightKeeps(a: string, t: string)
    requires t != "" && !IsSpace(t[0])
    ensures TrimRight(a + t) == a + TrimRight(t)
  {
    var n := |t| - 1;
    if IsSpace(t[n]) {
      assert (a + t)[..|a + t| - 1] == a + t[..n];
      TrimRightKeeps(a, t[..n]);
    }
  }

  /** Two different places for the comment give two different comments. */
  lemma PlaceTells(line: string, i: nat, j: nat)
    requires i < j <= |line| && line[i] == '#' && (j < |line| ==> line[j] == '#')
    ensures TrimSpace(line[i..]) != TrimSpace(line[j..])
  {
    CommentHead(line[i..]);
    if j < |line| {
      var gap, rest := line[i..j], line[j..];
      assert line[i..] == gap + rest && gap[0] == '#';
      TrimRightKeeps(gap, rest);
    } else {
      assert line[j..] == "";
      TrimTrimmed("");
    }
  }

  lemma SameCommentIff(line: string)
    ensures LineComment(line) == TomlComment(line) <==> CommentAt(line, OUTSIDE) == TomlCommentAt(line, Plain)
  {
    var at, c := TomlCommentAt(line, Plain), CommentAt(line, OUTSIDE);
    if c < at {
      PlaceTells(line, c, at);
    } else if at < c {
      PlaceTells(line, at, c);
    }
  }

  lemma CommentTextIff(line: string, at: nat, comment: string)
    requires TomlCommentAt(line, Plain) == at && line[at..] == comment
    ensures TomlComment(line) == TrimSpace(comment)
    ensures LineComment(line) == TrimSpace(comment) <==> CommentAt(line, OUTSIDE) == at
  {
    SameCommentIff(line);
  }

  /** For every line: what the editor keeps as the comment is TOML's comment if and only if the double
      quotes tell the two apart. */
  lemma CommentIsTomlsIff(line: string)
    ensures LineComment(line) == TomlComment(line) <==> QuotesTell(line)
  {
    SamePlaceIff(line);
    SameCommentIff(line);
  }

  // --- A key line whose value is one literal string ---

  /** Nothing in it starts a string or a comment. */
  predicate Unquoted(s: string) {
    forall i :: 0 <= i < |s| ==> s[i] != '"' && s[i] != '#' && s[i] != '\''
  }

  const TRIPLE := "'''"

  /** Nowhere three of these quotes in a row. */
  predicate NoTriple(w: string, q: char) {
    forall i :: 0 <= i < |w| - 2 ==> !(w[i] == q && w[i + 1] == q && w[i + 2] == q)
  }

  /** A literal string with this text: one or three quotes on either side. */
  predicate LiteralText(q: string, w: string) {
    (q == ['\''] && Free(w, '\'')) || (q == TRIPLE && NoTriple(w, '\''))
  }

  function LiteralLine(front: string, q: string, w: string, gap: string, comment: string): string {
    front + (q + (w + ((q + gap) + comment)))
  }

  predicate LiteralParts(front: string, q: string, w: string, gap: string, comment: string) {
    && Unquoted(front) && LiteralText(q, w) && AllSpace(gap) && Unquoted(gap)
    && (comment != "" ==> comment[0] == '#')
  }

  /** The literal's text, scanned from the outside: no '#' is met outside double quotes, and unless
      nothing follows, the double quotes are closed again at its end. */
  predicate LiteralIsSafe(w: string, comment: string) {
    CommentAt(w, OUTSIDE) == |w| && (comment != "" ==> After(w, OUTSIDE) == OUTSIDE)
  }

  lemma {:induction false} TomlSkips(s: string, t: string)
    requires Unquoted(s)
    ensures TomlCommentAt(s + t, Plain) == |s| + TomlCommentAt(t, Plain)
  {
    if s == [] {
      assert s + t == t;
    } else {
      assert (s + t)[1..] == s[1..] + t;
      TomlSkips(s[1..], t);
    }
  }

  lemma {:induction false} TomlSkipsLiteral(w: string, t: string)
    requires Free(w, '\'')
    ensures TomlCommentAt(w + (['\''] + t), Literal) == |w| + 1 + TomlCommentAt(t, Plain)
  {
    var s := w + (['\''] + t);
    if w == [] {
      assert s[1..] == t;
    } else {
      assert s[1..] == w[1..] + (['\''] + t);
      TomlSkipsLiteral(w[1..], t);
    }
  }

  /** The end of a string with three quotes on either side: what is left of the text is at most two
      more quotes. */
  lemma TripleEnd(w: string, t: string, q: char)
    requires |w| <= 2 && (forall i :: 0 <= i < |w| ==> w[i] == q) && (t != "" ==> t[0] != q)
    ensures var s := w + ([q, q, q] + t); Triple(s, q) && Closing(s, q) == |w| + 3 && s[|w| + 3..] == t
  {
  }

  /** Before that, a step takes one character of the text. */
  lemma TripleInside(w: string, t: string, q: char)
    requires NoTriple(w, q) && w != "" && (w[0] != q || (|w| > 1 && w[1] != q) || |w| > 2)
    ensures var s := w + ([q, q, q] + t); !Triple(s, q) && s[1..] == w[1..] + ([q, q, q] + t)
    ensures NoTriple(w[1..], q)
  {
    assert forall i :: 0 <= i < |w| - 1 ==> w[1..][i] == w[i + 1];
  }

  /** The text of a string with three quotes on either side, up to behind its end. */
  lemma {:induction false} TomlSkipsTriple(w: string, t: string, q: char, st: Lex)
    requires (q == '\'' && st == MultiLiteral) || (q == '"' && st == MultiBasic && Free(w, '\\'))
    requires NoTriple(w, q) && (t != "" ==> t[0] != q)
    ensures TomlCommentAt(w + ([q, q, q] + t), st) == |w| + 3 + TomlCommentAt(t, Plain)
  {
    if w != "" && (w[0] != q || (|w| > 1 && w[1] != q) || |w| > 2) {
      TripleInside(w, t, q);
      TomlSkipsTriple(w[1..], t, q, st);
    } else {
      TripleEnd(w, t, q);
    }
  }

  lemma QuoteThenGap(q: string, gap: string, comment: string)
    ensures (q + gap) + comment == q + (gap + comment)
  {
  }

  lemma TomlCommentBehind(front: string, q: string, w: string, gap: string, comment: string)
    requires LiteralParts(front, q, w, gap, comment)
    ensures TomlCommentAt(LiteralLine(front, q, w, gap, comment), Plain) == |front| + |w| + 2 * |q| + |gap|
  {
    var rest := w + ((q + gap) + comment);
    TomlSkips(front, q + rest);
    assert (q + rest)[|q|..] == rest;
    QuoteThenGap(q, gap, comment);
    if q == ['\''] {
      assert !Triple(q + rest, '\'');
      TomlSkipsLiteral(w, gap + comment);
    } else {
      assert Triple(q + rest, '\'');
      TomlSkipsTriple(w, gap + comment, '\'', MultiLiteral);
    }
    TomlSkips(gap, comment);
  }

  lemma {:induction false} StaysQuoted(s: string, st: Scan)
    requires st.inQuote && forall i :: 0 <= i < |s| ==> s[i] != '"' && s[i] != '\\'
    ensures CommentAt(s, st) == |s| && After(s, st).inQuote && (s != "" ==> !After(s, st).escaped)
  {
    if s != [] {
      StaysQuoted(s[1..], Next(st, s[0]));
    }
  }

  lemma ScanBehindQuoted(front: string, comment: string, st: Scan)
    requires front != "" && (comment != "" ==> comment[0] == '#') && st.inQuote
    requires forall i :: 0 <= i < |front| ==> front[i] != '"' && front[i] != '\\'
    ensures CommentAt(front + comment, st) == |front| <==> comment == ""
  {
    StaysQuoted(front, st);
    ScanConcat(front, comment, st);
  }

  lemma ScanBehindOutside(front: string, comment: string)
    requires Neutral(front) && (comment != "" ==> comment[0] == '#')
    ensures CommentAt(front + comment, OUTSIDE) == |front|
  {
    ScanConcat(front, comment, OUTSIDE);
  }

  /** The end of the literal and what follows, for a scanner that may still be inside quotes. */
  lemma LiteralEnd(front: string, comment: string, st: Scan)
    requires front != "" && Neutral(front) && forall i :: 0 <= i < |front| ==> front[i] != '"' && front[i] != '\\'
    requires (comment != "" ==> comment[0] == '#') && (st.escaped ==> st.inQuote)
    ensures CommentAt(front + comment, st) == |front| <==> (comment != "" ==> st == OUTSIDE)
  {
    if st.inQuote {
      ScanBehindQuoted(front, comment, st);
    } else {
      ScanBehindOutside(front, comment);
    }
  }

  lemma QuotedFront(q: string, gap: string)
    requires (q == ['\''] || q == TRIPLE) && AllSpace(gap)
    ensures var front := q + gap;
            Neutral(front) && forall i :: 0 <= i < |front| ==> front[i] != '"' && front[i] != '\\'
  {
    PlainIsNeutral(q + gap);
  }

  lemma LiteralPlaceIff(front: string, q: string, w: string, gap: string, comment: string)
    requires LiteralParts(front, q, w, gap, comment)
    ensures CommentAt(LiteralLine(front, q, w, gap, comment), OUTSIDE) == |front| + |w| + 2 * |q| + |gap|
       <==> LiteralIsSafe(w, comment)
  {
    var behind := (q + gap) + comment;
    PlainIsNeutral(front);
    PlainIsNeutral(q);
    ScanConcat(front, q + (w + behind), OUTSIDE);
    ScanConcat(q, w + behind, OUTSIDE);
    ScanConcat(w, behind, OUTSIDE);
    EscapedIsQuoted(w, OUTSIDE);
    QuotedFront(q, gap);
    LiteralEnd(q + gap, comment, After(w, OUTSIDE));
  }

  lemma LiteralLineEnd(front: string, q: string, w: string, gap: string, comment: string)
    ensures LiteralLine(front, q, w, gap, comment)[|front| + |w| + 2 * |q| + |gap|..] == comment
  {
    var a := front + q + w + q + gap;
    assert LiteralLine(front, q, w, gap, comment) == a + comment;
  }

  lemma LiteralCommentIff(front: string, q: string, w: string, gap: string, comment: string)
    requires LiteralParts(front, q, w, gap, comment)
    ensures var line := LiteralLine(front, q, w, gap, comment);
            && TomlComment(line) == TrimSpace(comment)
            && (LineComment(line) == TrimSpace(comment) <==> LiteralIsSafe(w, comment))
  {
    var line := LiteralLine(front, q, w, gap, comment);
    TomlCommentBehind(front, q, w, gap, comment);
    LiteralLineEnd(front, q, w, gap, comment);
    LiteralPlaceIff(front, q, w, gap, comment);
    CommentTextIff(line, |front| + |w| + 2 * |q| + |gap|, comment);
  }

  /** The rewritten line has the old indentation and this comment, and nothing else of the old line. */
  ghost predicate Keeps(line: string, comment: string) {
    forall key, raw ::
      ReplaceValue(line, key, raw) == LeadingBlanks(line) + KeyLine(key, raw) + Tail(TrimSpace(comment))
  }

  lemma KeepsIff(line: string, comment: string)
    ensures Keeps(line, comment) <==> LineComment(line) == TrimSpace(comment)
  {
    if Keeps(line, comment) {
      assert ReplaceValue(line, "", "") == LeadingBlanks(line) + KeyLine("", "") + Tail(TrimSpace(comment));
      TailTells(LeadingBlanks(line) + KeyLine("", ""), LineComment(line), TrimSpace(comment));
    }
  }

  /** For every key line whose value is a literal string, with one or three quotes: replacing the value
      keeps the indentation and TOML's comment, and nothing else of the old line, if and only if the
      literal is safe. */
  lemma LiteralKeepsCommentIff(front: string, q: string, w: string, gap: string, comment: string)
    requires LiteralParts(front, q, w, gap, comment)
    ensures var line := LiteralLine(front, q, w, gap, comment);
            TomlComment(line) == TrimSpace(comment) && (Keeps(line, comment) <==> LiteralIsSafe(w, comment))
  {
    LiteralCommentIff(front, q, w, gap, comment);
    KeepsIff(LiteralLine(front, q, w, gap, comment), comment);
  }

  lemma TailTells(front: string, c: string, d: string)
    ensures front + Tail(c) == front + Tail(d) <==> c == d
  {
    if front + Tail(c) == front + Tail(d) {
      assert (front + Tail(c))[|front|..] == Tail(c) && (front + Tail(d))[|front|..] == Tail(d);
      assert c != "" ==> Tail(c)[1..] == c;
      assert d != "" ==> Tail(d)[1..] == d;
    }
  }

  // --- A key line whose value is one basic string ---

  /** The text of a basic string as it stands in the line: every double quote is escaped. */
  predicate BasicText(w: string) {
    w == "" || (if w[0] == '\\' then |w| > 1 && BasicText(w[2..]) else w[0] != '"' && BasicText(w[1..]))
  }

  function BasicLine(front: string, w: string, gap: string, comment: string): string {
    front + (['"'] + (w + (['"'] + (gap + comment))))
  }

  lemma {:induction false} TomlSkipsBasic(w: string, t: string)
    requires BasicText(w)
    ensures TomlCommentAt(w + (['"'] + t), Basic) == |w| + 1 + TomlCommentAt(t, Plain)
  {
    var s := w + (['"'] + t);
    if w == "" {
      assert s[1..] == t;
    } else {
      var n := if w[0] == '\\' then 2 else 1;
      assert s[n..] == w[n..] + (['"'] + t);
      TomlSkipsBasic(w[n..], t);
    }
  }

  lemma {:induction false} ScansBasic(w: string, t: string)
    requires BasicText(w)
    ensures CommentAt(w + (['"'] + t), Scan(true, false)) == |w| + 1 + CommentAt(t, OUTSIDE)
  {
    var s := w + (['"'] + t);
    if w == "" {
      assert s[1..] == t;
    } else if w[0] == '\\' {
      assert s[1..][1..] == w[2..] + (['"'] + t);
      ScansBasic(w[2..], t);
    } else {
      assert s[1..] == w[1..] + (['"'] + t);
      ScansBasic(w[1..], t);
    }
  }

  lemma BasicToml(w: string, gap: string, comment: string)
    requires BasicText(w) && Unquoted(gap) && (comment != "" ==> comment[0] == '#')
    ensures TomlCommentAt(['"'] + (w + (['"'] + (gap + comment))), Plain) == |w| + 2 + |gap|
  {
    var rest := w + (['"'] + (gap + comment));
    assert (['"'] + rest)[1..] == rest;
    NotTriple(w, gap + comment);
    TomlSkipsBasic(w, gap + comment);
    TomlSkips(gap, comment);
  }

  lemma NotTriple(w: string, t: string)
    requires BasicText(w) && (t != "" ==> t[0] != '"')
    ensures !Triple(['"'] + (w + (['"'] + t)), '"')
  {
    if w != "" {
      assert (['"'] + (w + (['"'] + t)))[1] == w[0];
    }
  }

  lemma BasicScan(w: string, gap: string, comment: string)
    requires BasicText(w) && Unquoted(gap) && (comment != "" ==> comment[0] == '#')
    ensures CommentAt(['"'] + (w + (['"'] + (gap + comment))), OUTSIDE) == |w| + 2 + |gap|
  {
    var rest := w + (['"'] + (gap + comment));
    assert (['"'] + rest)[1..] == rest;
    ScansBasic(w, gap + comment);
    PlainIsNeutral(gap);
    ScanConcat(gap, comment, OUTSIDE);
  }

  lemma BasicPlace(front: string, w: string, gap: string, comment: string)
    requires Unquoted(front) && BasicText(w) && Unquoted(gap) && (comment != "" ==> comment[0] == '#')
    ensures var line, at := BasicLine(front, w, gap, comment), |front| + |w| + 2 + |gap|;
            TomlCommentAt(line, Plain) == at && CommentAt(line, OUTSIDE) == at
  {
    var rest := ['"'] + (w + (['"'] + (gap + comment)));
    TomlSkips(front, rest);
    BasicToml(w, gap, comment);
    PlainIsNeutral(front);
    ScanConcat(front, rest, OUTSIDE);
    BasicScan(w, gap, comment);
  }

  lemma BasicLineEnd(front: string, w: string, gap: string, comment: string)
    ensures BasicLine(front, w, gap, comment)[|front| + |w| + 2 + |gap|..] == comment
  {
    var a := front + ['"'] + w + ['"'] + gap;
    assert BasicLine(front, w, gap, comment) == a + comment;
  }

  /** For every key line whose value is a basic string, whatever it holds: replacing the value keeps the
      indentation and TOML's comment, and nothing else of the old line. */
  lemma BasicKeepsComment(front: string, w: string, gap: string, comment: string)
    requires Unquoted(front) && BasicText(w) && Unquoted(gap) && (comment != "" ==> comment[0] == '#')
    ensures var line := BasicLine(front, w, gap, comment);
            TomlComment(line) == TrimSpace(comment) && Keeps(line, comment)
  {
    BasicPlace(front, w, gap, comment);
    BasicLineEnd(front, w, gap, comment);
    CommentTextIff(BasicLine(front, w, gap, comment), |front| + |w| + 2 + |gap|, comment);
    KeepsIff(BasicLine(front, w, gap, comment), comment);
  }

  // --- Lines that the editor rewrites wrongly ---

  lemma KeyLineOf(line: string, rest: string)
    requires line == "name =" + rest
    ensures MatchKey(line, "name") && LeadingBlanks(line) == ""
  {
    KeyMatches("", "name", " ", rest);
    assert "" + "name" + " " + "=" + rest == "name =" + rest;
    assert line[0] == 'n';
  }

  lemma NoteBehind(line: string, w: string)
    requires Free(w, '\'') && line == LiteralLine("name = ", ['\''], w, " ", "# note")
    ensures TomlComment(line) == "# note"
  {
    LiteralCommentIff("name = ", ['\''], w, " ", "# note");
    TrimTrimmed("# note");
  }

  lemma NothingBehind(line: string, w: string)
    requires NoTriple(w, '\'') && line == LiteralLine("name = ", TRIPLE, w, "", "")
    ensures TomlComment(line) == ""
  {
    LiteralCommentIff("name = ", TRIPLE, w, "", "");
    TrimTrimmed("");
  }

  lemma TripleBasic(rest: string)
    ensures TomlCommentAt(['"', '"', '"'] + rest, Plain) == 3 + TomlCommentAt(rest, MultiBasic)
  {
    var s := ['"', '"', '"'] + rest;
    assert Triple(s, '"') && s[3..] == rest;
  }

  lemma NoTomlComment(line: string)
    requires TomlCommentAt(line, Plain) == |line|
    ensures TomlComment(line) == ""
  {
    assert line[|line|..] == "";
    TrimTrimmed("");
  }

  lemma NothingBehindBasic(line: string, w: string)
    requires NoTriple(w, '"') && Free(w, '\\') && line == "name = " + (['"', '"', '"'] + (w + (['"', '"', '"'] + "")))
    ensures TomlComment(line) == ""
  {
    var rest := w + (['"', '"', '"'] + "");
    TomlSkips("name = ", ['"', '"', '"'] + rest);
    TripleBasic(rest);
    TomlSkipsTriple(w, "", '"', MultiBasic);
    NoTomlComment(line);
  }

  lemma CommentFrom(line: string, front: string, c: string)
    requires line == front + c && Neutral(front) && Trimmed(c) && c != "" && c[0] == '#'
    ensures LineComment(line) == c
  {
    CommentBehind(front, c);
    assert line[|front|..] == c;
    TrimTrimmed(c);
  }

  lemma NoCommentFrom(line: string, front: string, rest: string)
    requires line == front + (['"'] + rest) && Neutral(front)
    requires forall i :: 0 <= i < |rest| ==> rest[i] != '"' && rest[i] != '\\'
    ensures LineComment(line) == ""
  {
    ScanConcat(front, ['"'] + rest, OUTSIDE);
    assert (['"'] + rest)[1..] == rest;
    StaysQuoted(rest, Scan(true, false));
    CommentShape(line);
  }

  lemma WrittenLine(line: string, key: string, raw: string, out: string)
    requires LeadingBlanks(line) == "" && out == KeyLine(key, raw) + Tail(LineComment(line))
    ensures ReplaceValue(line, key, raw) == out
  {
    assert "" + KeyLine(key, raw) == KeyLine(key, raw);
  }

  const HASHED := "name = '#1' # note"

  const UNCLOSED := "name = '\"' # note"

  const TRIPLED := "name = '''it's # x'''"

  const WIDE := "name = \"\"\"5\" # wide\"\"\""

  lemma HashedKey()
    ensures MatchKey(HASHED, "name") && LeadingBlanks(HASHED) == ""
  {
    assert HASHED == "name =" + " '#1' # note";
    KeyLineOf(HASHED, " '#1' # note");
  }

  lemma HashedNote()
    ensures TomlComment(HASHED) == "# note"
  {
    assert HASHED == LiteralLine("name = ", ['\''], "#1", " ", "# note");
    NoteBehind(HASHED, "#1");
  }

  lemma HashedComment()
    ensures LineComment(HASHED) == "#1' # note"
  {
    assert HASHED == "name = '" + "#1' # note";
    PlainIsNeutral("name = '");
    CommentFrom(HASHED, "name = '", "#1' # note");
  }

  lemma HashedSpelled()
    ensures KeyLine("name", "\"x\"") + Tail("#1' # note") == "name = \"x\" #1' # note"
  {
  }

  lemma HashedWritten()
    ensures ReplaceValue(HASHED, "name", "\"x\"") == "name = \"x\" #1' # note"
  {
    HashedKey();
    HashedComment();
    HashedSpelled();
    WrittenLine(HASHED, "name", "\"x\"", "name = \"x\" #1' # note");
  }

  lemma UnclosedKey()
    ensures MatchKey(UNCLOSED, "name") && LeadingBlanks(UNCLOSED) == ""
  {
    assert UNCLOSED == "name =" + " '\"' # note";
    KeyLineOf(UNCLOSED, " '\"' # note");
  }

  lemma UnclosedNote()
    ensures TomlComment(UNCLOSED) == "# note"
  {
    assert UNCLOSED == LiteralLine("name = ", ['\''], "\"", " ", "# note");
    NoteBehind(UNCLOSED, "\"");
  }

  lemma UnclosedComment()
    ensures LineComment(UNCLOSED) == ""
  {
    assert UNCLOSED == "name = '" + (['"'] + "' # note");
    PlainIsNeutral("name = '");
    NoCommentFrom(UNCLOSED, "name = '", "' # note");
  }

  lemma UnclosedSpelled()
    ensures KeyLine("name", "\"x\"") + Tail("") == "name = \"x\""
  {
  }

  lemma UnclosedWritten()
    ensures ReplaceValue(UNCLOSED, "name", "\"x\"") == "name = \"x\""
  {
    UnclosedKey();
    UnclosedComment();
    UnclosedSpelled();
    WrittenLine(UNCLOSED, "name", "\"x\"", "name = \"x\"");
  }

  lemma TripledKey()
    ensures MatchKey(TRIPLED, "name") && LeadingBlanks(TRIPLED) == ""
  {
    assert TRIPLED == "name =" + " '''it's # x'''";
    KeyLineOf(TRIPLED, " '''it's # x'''");
  }

  lemma TripledNote()
    ensures TomlComment(TRIPLED) == ""
  {
    assert TRIPLED == LiteralLine("name = ", TRIPLE, "it's # x", "", "");
    NothingBehind(TRIPLED, "it's # x");
  }

  lemma TripledPlain(front: string)
    requires front == "name = '''it's "
    ensures forall i :: 0 <= i < |front| ==> front[i] != '"' && front[i] != '#'
  {
  }

  lemma TripledSplit()
    ensures TRIPLED == "name = '''it's " + "# x'''"
  {
  }

  lemma TripledComment()
    ensures LineComment(TRIPLED) == "# x'''"
  {
    TripledSplit();
    TripledPlain("name = '''it's ");
    PlainIsNeutral("name = '''it's ");
    CommentFrom(TRIPLED, "name = '''it's ", "# x'''");
  }

  lemma TripledSpelled()
    ensures KeyLine("name", "\"x\"") + Tail("# x'''") == "name = \"x\" # x'''"
  {
  }

  lemma TripledWritten()
    ensures ReplaceValue(TRIPLED, "name", "\"x\"") == "name = \"x\" # x'''"
  {
    TripledKey();
    TripledComment();
    TripledSpelled();
    WrittenLine(TRIPLED, "name", "\"x\"", "name = \"x\" # x'''");
  }

  lemma WideKey()
    ensures MatchKey(WIDE, "name") && LeadingBlanks(WIDE) == ""
  {
    assert WIDE == "name =" + " \"\"\"5\" # wide\"\"\"";
    KeyLineOf(WIDE, " \"\"\"5\" # wide\"\"\"");
  }

  lemma WideNote()
    ensures TomlComment(WIDE) == ""
  {
    assert WIDE == "name = " + (['"', '"', '"'] + ("5\" # wide" + (['"', '"', '"'] + "")));
    NothingBehindBasic(WIDE, "5\" # wide");
  }

  /** Two double quotes with nothing special between them. */
  lemma PairIsNeutral(w: string)
    requires forall i :: 0 <= i < |w| ==> w[i] != '"' && w[i] != '\\'
    ensures Neutral(['"'] + (w + ['"']))
  {
    var s := ['"'] + (w + ['"']);
    assert s[1..] == w + ['"'];
    StaysQuoted(w, Scan(true, false));
    ScanConcat(w, ['"'], Scan(true, false));
    if w == "" { assert w + ['"'] == ['"']; }
    assert ['"'][1..] == "";
  }

  lemma WideComment()
    ensures LineComment(WIDE) == "# wide\"\"\""
  {
    var five := ['"'] + ("5" + ['"']);
    PlainIsNeutral("name = ");
    PlainIsNeutral(" ");
    PairIsNeutral("");
    PairIsNeutral("5");
    FourNeutral("name = ", ['"'] + ("" + ['"']), five, " ");
    WideSplit();
    CommentFrom(WIDE, "name = " + (['"'] + ("" + ['"'])) + five + " ", "# wide\"\"\"");
  }

  lemma FourNeutral(a: string, b: string, c: string, d: string)
    requires Neutral(a) && Neutral(b) && Neutral(c) && Neutral(d)
    ensures Neutral(a + b + c + d)
  {
    NeutralConcat(a, b);
    NeutralConcat(a + b, c);
    NeutralConcat(a + b + c, d);
  }

  lemma WideSplit()
    ensures WIDE == "name = " + (['"'] + ("" + ['"'])) + (['"'] + ("5" + ['"'])) + " " + "# wide\"\"\""
  {
  }

  lemma WideSpelled()
    ensures KeyLine("name", "\"x\"") + Tail("# wide\"\"\"") == "name = \"x\" # wide\"\"\""
  {
  }

  lemma WideWritten()
    ensures ReplaceValue(WIDE, "name", "\"x\"") == "name = \"x\" # wide\"\"\""
  {
    WideKey();
    WideComment();
    WideSpelled();
    WrittenLine(WIDE, "name", "\"x\"", "name = \"x\" # wide\"\"\"");
  }

  /** Four lines the editor rewrites for the key "name". In the second, the comment is lost; in the
      others, part of the old value stays behind as a comment. */
  lemma StringsMislead()
    ensures MatchKey(HASHED, "name") && TomlComment(HASHED) == "# note"
            && ReplaceValue(HASHED, "name", "\"x\"") == "name = \"x\" #1' # note"
    ensures MatchKey(UNCLOSED, "name") && TomlComment(UNCLOSED) == "# note"
            && ReplaceValue(UNCLOSED, "name", "\"x\"") == "name = \"x\""
    ensures MatchKey(TRIPLED, "name") && TomlComment(TRIPLED) == ""
            && ReplaceValue(TRIPLED, "name", "\"x\"") == "name = \"x\" # x'''"
    ensures MatchKey(WIDE, "name") && TomlComment(WIDE) == ""
            && ReplaceValue(WIDE, "name", "\"x\"") == "name = \"x\" # wide\"\"\""
  {
    HashedKey();
    HashedNote();
    HashedWritten();
    UnclosedKey();
    UnclosedNote();
    UnclosedWritten();
    TripledKey();
    TripledNote();
    TripledWritten();
    WideKey();
    WideNote();
    WideWritten();
  }
}
