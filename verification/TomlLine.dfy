/** config/config.go: one line of the configuration file, the way the line editor looks at it. */
module TomlLine {
  import opened Text

  // --- Headers and keys ---

  /** matchTableHeader */
  predicate MatchHeader(line: string, header: string) {
    var t := TrimSpace(line);
    header <= t && (|t| == |header| || t[|header|] == ' ' || t[|header|] == '\t' || t[|header|] == '#')
  }

  /** isAnyTableHeader */
  predicate IsHeader(line: string) {
    "[" <= TrimSpace(line)
  }

  predicate Blank(line: string) {
    TrimSpace(line) == ""
  }

  /** matchTomlStringKey */
  predicate MatchKey(line: string, key: string) {
    var t := TrimSpace(line);
    t != "" && t[0] != '#' && t[0] != '[' && key <= t && "=" <= TrimSpace(t[|key|..])
  }

  /** A key as the editor writes them: bare keys are among these. */
  predicate ProperKey(key: string) {
    key != "" && key[0] != '['
    && forall i :: 0 <= i < |key| ==> !IsSpace(key[i]) && key[i] != '=' && key[i] != '"' && key[i] != '#'
  }

  predicate ProperHeader(header: string) {
    "[" <= header && Trimmed(header)
  }

  // --- Comments ---

  /** The scanner's state: inside double quotes, and behind a backslash. */
  datatype Scan = Scan(inQuote: bool, escaped: bool)

  const OUTSIDE: Scan := Scan(false, false)

  /** The scanner behind one character that does not start a comment. */
  function Next(st: Scan, ch: char): Scan {
    if st.escaped then st.(escaped := false)
    else if ch == '\\' && st.inQuote then st.(escaped := true)
    else if ch == '"' then st.(inQuote := !st.inQuote)
    else st
  }

  predicate StartsComment(st: Scan, ch: char) {
    !st.escaped && !st.inQuote && ch == '#'
  }

  /** Where the comment starts, or |s|. */
  function CommentAt(s: string, st: Scan): (i: nat)
    ensures i <= |s|
    ensures i < |s| ==> s[i] == '#'
  {
    if s == [] then 0
    else if StartsComment(st, s[0]) then 0
    else 1 + CommentAt(s[1..], Next(st, s[0]))
  }

  /** The scanner's state behind s, if no comment starts in it. */
  function After(s: string, st: Scan): Scan {
    if s == [] then st else After(s[1..], Next(st, s[0]))
  }

  /** Scanning s from the outside meets no comment and ends outside. */
  predicate Neutral(s: string) {
    CommentAt(s, OUTSIDE) == |s| && After(s, OUTSIDE) == OUTSIDE
  }

  lemma {:induction false} ScanConcat(a: string, b: string, st: Scan)
    ensures CommentAt(a + b, st) == if CommentAt(a, st) < |a| then CommentAt(a, st)
                                    else |a| + CommentAt(b, After(a, st))
    ensures After(a + b, st) == After(b, After(a, st))
  {
    if a == [] {
      assert a + b == b;
    } else {
      assert (a + b)[1..] == a[1..] + b;
      ScanConcat(a[1..], b, Next(st, a[0]));
    }
  }

  lemma {:induction false} PlainIsNeutral(s: string)
    requires forall i :: 0 <= i < |s| ==> s[i] != '"' && s[i] != '#'
    ensures Neutral(s)
  {
    if s != [] {
      PlainIsNeutral(s[1..]);
    }
  }

  lemma NeutralConcat(a: string, b: string)
    requires Neutral(a) && Neutral(b)
    ensures Neutral(a + b)
  {
    ScanConcat(a, b, OUTSIDE);
  }

  lemma CommentBehind(a: string, c: string)
    requires Neutral(a) && c != "" && c[0] == '#'
    ensures CommentAt(a + c, OUTSIDE) == |a|
  {
    ScanConcat(a, c, OUTSIDE);
  }

  /** extractLineComment */
  function LineComment(line: string): (c: string)
  {
    TrimSpace(line[CommentAt(line, OUTSIDE)..])
  }

  method ExtractLineComment(line: string) returns (c: string)
    ensures c == LineComment(line)
  {
    var inQuote, escaped := false, false;
    var i := 0;
    while i < |line|
      invariant 0 <= i <= CommentAt(line, OUTSIDE)
      invariant CommentAt(line, OUTSIDE) == i + CommentAt(line[i..], Scan(inQuote, escaped))
    {
      var ch := line[i];
      assert line[i..][1..] == line[i + 1..];
      i := i + 1;
      if escaped {
        escaped := false;
        continue;
      }
      if ch == '\\' && inQuote {
        escaped := true;
        continue;
      }
      if ch == '"' {
        inQuote := !inQuote;
        continue;
      }
      if ch == '#' && !inQuote {
        return TrimSpace(line[i - 1..]);
      }
    }
    assert line[|line|..] == "";
    assert TrimSpace("") == "";
    return "";
  }

  /** A comment starts with its '#' and is trimmed; there is none exactly when the scan finds none. */
  lemma CommentShape(line: string)
    ensures Trimmed(LineComment(line))
    ensures CommentAt(line, OUTSIDE) < |line| ==> LineComment(line) != "" && LineComment(line)[0] == '#'
    ensures CommentAt(line, OUTSIDE) == |line| ==> LineComment(line) == ""
  {
    var at := CommentAt(line, OUTSIDE);
    if at < |line| {
      CommentHead(line[at..]);
      TrimmedAlways(line[at..]);
    } else {
      assert line[at..] == "";
      TrimTrimmed("");
    }
  }

  lemma TrimmedAlways(s: string)
    ensures Trimmed(TrimSpace(s))
  {
    var a, b := TrimSplits(s);
  }

  /** Trimming a text that starts with '#' leaves the '#' in front. */
  lemma CommentHead(s: string)
    requires s != "" && s[0] == '#'
    ensures TrimSpace(s) != "" && TrimSpace(s)[0] == '#'
  {
    TrimRightKeepsHead(s);
  }

  lemma {:induction false} TrimRightKeepsHead(s: string)
    requires s != "" && !IsSpace(s[0])
    ensures TrimRight(s) != "" && TrimRight(s)[0] == s[0]
  {
    if IsSpace(s[|s| - 1]) { TrimRightKeepsHead(s[..|s| - 1]); }
  }

  // --- Replacing a value ---

  predicate IsBlankChar(c: char) {
    c == ' ' || c == '\t'
  }

  /** leadingWhitespace */
  function LeadingBlanks(s: string): (r: string)
    ensures |r| <= |s| && r == s[..|r|]
    ensures forall i :: 0 <= i < |r| ==> IsBlankChar(r[i])
    ensures |r| < |s| ==> !IsBlankChar(s[|r|])
  {
    if s != [] && IsBlankChar(s[0]) then [s[0]] + LeadingBlanks(s[1..]) else []
  }

  method LeadingWhitespace(s: string) returns (r: string)
    ensures r == LeadingBlanks(s)
  {
    var i := 0;
    while i < |s| && (s[i] == ' ' || s[i] == '\t')
      invariant 0 <= i <= |s|
      invariant forall j :: 0 <= j < i ==> IsBlankChar(s[j])
    {
      i := i + 1;
    }
    LeadingBlanksUnique(s, i);
    return s[..i];
  }

  lemma {:induction false} LeadingBlanksUnique(s: string, n: nat)
    requires n <= |s| && forall j :: 0 <= j < n ==> IsBlankChar(s[j])
    requires n < |s| ==> !IsBlankChar(s[n])
    ensures LeadingBlanks(s) == s[..n]
  {
    if n > 0 {
      LeadingBlanksUnique(s[1..], n - 1);
      assert [s[0]] + s[1..][..n - 1] == s[..n];
    }
  }

  function KeyLine(key: string, raw: string): string {
    key + " = " + raw
  }

  function Tail(comment: string): string {
    if comment != "" then " " + comment else ""
  }

  /** replaceTomlStringKeyLine and the body of upsertTomlRawKey's loop, for an already formatted value. */
  function ReplaceValue(line: string, key: string, raw: string): string {
    LeadingBlanks(line) + KeyLine(key, raw) + Tail(LineComment(line))
  }

  // --- Reading a value ---

  function FirstEq(s: string): (i: nat)
    ensures i <= |s|
    ensures i < |s| ==> s[i] == '='
    ensures forall j :: 0 <= j < i ==> s[j] != '='
  {
    if s == [] || s[0] == '=' then 0 else 1 + FirstEq(s[1..])
  }

  /** The text between the first '=' and the comment. */
  function ValueOf(line: string): string {
    if FirstEq(line) == |line| then ""
    else
      var rest := line[FirstEq(line) + 1..];
      TrimSpace(rest[..CommentAt(rest, OUTSIDE)])
  }

  lemma {:induction false} FirstEqAt(a: string, b: string)
    requires forall i :: 0 <= i < |a| ==> a[i] != '='
    ensures FirstEq(a + "=" + b) == |a|
  {
    var s := a + "=" + b;
    assert s[|a|] == '=';
    assert forall i :: 0 <= i < |a| ==> s[i] == a[i];
  }

  /** The trimmed line: it starts with the key and ends with the value or the '='. */
  lemma KeyCore(key: string, b: string, w: string) returns (t: string)
    requires ProperKey(key) && (w != "" ==> !IsSpace(w[|w| - 1]))
    ensures t == key + (b + ("=" + w)) && Trimmed(t) && t[0] == key[0]
  {
    t := key + (b + ("=" + w));
    assert t[0] == key[0];
    assert t[|t| - 1] == if w == "" then '=' else w[|w| - 1];
  }

  lemma KeyMatches(a: string, key: string, b: string, v: string)
    requires AllSpace(a) && AllSpace(b) && ProperKey(key)
    ensures MatchKey(a + key + b + "=" + v, key)
  {
    var y := TrimRightSplits(v);
    var w := TrimRight(v);
    var t := KeyCore(key, b, w);
    KeyParts(a, key, b, "=", w, y);
    TrimOver(a, t, y);
    assert t[|key|..] == b + ("=" + w);
    assert b + ("=" + w) + [] == b + ("=" + w);
    TrimOver(b, "=" + w, []);
  }

  lemma KeyParts<T>(a: seq<T>, k: seq<T>, b: seq<T>, e: seq<T>, w: seq<T>, y: seq<T>)
    ensures a + k + b + e + (w + y) == a + (k + (b + (e + w))) + y
  {
  }

  lemma KeyLineNotHeader(a: string, key: string, b: string, v: string)
    requires AllSpace(a) && AllSpace(b) && ProperKey(key)
    ensures !IsHeader(a + key + b + "=" + v) && !Blank(a + key + b + "=" + v)
  {
    KeyMatches(a, key, b, v);
  }

  /** A line matches at most one proper key. */
  lemma KeyUnique(line: string, key: string, other: string)
    requires MatchKey(line, key) && MatchKey(line, other) && ProperKey(key) && ProperKey(other)
    ensures key == other
  {
    var t := TrimSpace(line);
    KeyEnd(t, key);
    KeyEnd(t, other);
    KeyRunes(t, key);
    KeyRunes(t, other);
    assert |key| == |other|;
  }

  lemma KeyRunes(t: string, key: string)
    requires key <= t && ProperKey(key)
    ensures forall i :: 0 <= i < |key| ==> !IsSpace(t[i]) && t[i] != '='
  {
    assert forall i :: 0 <= i < |key| ==> t[i] == key[i];
  }

  lemma KeyEnd(t: string, key: string)
    requires key <= t && "=" <= TrimSpace(t[|key|..])
    ensures |key| < |t| && (IsSpace(t[|key|]) || t[|key|] == '=')
  {
    var rest := t[|key|..];
    var p, q := TrimSplits(rest);
    if p == [] {
      assert rest[0] == TrimSpace(rest)[0];
    } else {
      assert rest[0] == p[0];
    }
  }

  // --- The replaced line ---

  lemma BlanksAreSpace(s: string)
    requires forall i :: 0 <= i < |s| ==> IsBlankChar(s[i])
    ensures AllSpace(s) && Neutral(s)
  {
    PlainIsNeutral(s);
  }

  /** Reading back what was written. */
  lemma ReplacedReads(line: string, key: string, raw: string)
    requires ProperKey(key) && Neutral(raw) && Trimmed(raw)
    ensures MatchKey(ReplaceValue(line, key, raw), key)
    ensures ValueOf(ReplaceValue(line, key, raw)) == raw
    ensures !IsHeader(ReplaceValue(line, key, raw)) && !Blank(ReplaceValue(line, key, raw))
  {
    var indent := LeadingBlanks(line);
    var rest := " " + raw + Tail(LineComment(line));
    BlanksAreSpace(indent);
    assert ReplaceValue(line, key, raw) == indent + key + " " + "=" + rest;
    KeyMatches(indent, key, " ", rest);
    KeyLineNotHeader(indent, key, " ", rest);
    ValueAfterKey(indent, key, " ", rest);
    ValueBehindEq(raw, LineComment(line), line);
  }

  lemma ValueAfterKey(indent: string, key: string, gap: string, rest: string)
    requires AllSpace(indent) && ProperKey(key) && AllSpace(gap)
    ensures ValueOf(indent + key + gap + "=" + rest) == TrimSpace(rest[..CommentAt(rest, OUTSIDE)])
  {
    var front := indent + key + gap;
    FirstEqAt(front, rest);
    assert (front + "=" + rest)[|front| + 1..] == rest;
  }

  lemma ValueBehindEq(raw: string, comment: string, line: string)
    requires Neutral(raw) && Trimmed(raw) && comment == LineComment(line)
    ensures var rest := " " + raw + Tail(comment);
            TrimSpace(rest[..CommentAt(rest, OUTSIDE)]) == raw
  {
    CommentShape(line);
    PlainIsNeutral(" ");
    NeutralConcat(" ", raw);
    if comment == "" {
      assert " " + raw + Tail(comment) == " " + raw;
      assert (" " + raw)[..|" " + raw|] == " " + raw + [];
      TrimOver(" ", raw, []);
    } else {
      NeutralConcat(" " + raw, " ");
      var front := " " + raw + " ";
      assert " " + raw + Tail(comment) == front + comment;
      CommentBehind(front, comment);
      assert (front + comment)[..|front|] == front;
      TrimOver(" ", raw, " ");
    }
  }

  lemma ReplacedKeepsIndent(line: string, key: string, raw: string)
    requires ProperKey(key)
    ensures LeadingBlanks(ReplaceValue(line, key, raw)) == LeadingBlanks(line)
  {
    var indent := LeadingBlanks(line);
    var rest := KeyLine(key, raw) + Tail(LineComment(line));
    var out := indent + rest;
    assert out == ReplaceValue(line, key, raw);
    assert out[|indent|] == rest[0] == key[0];
    assert out[..|indent|] == indent;
    LeadingBlanksUnique(out, |indent|);
  }

  lemma FrontNeutral(indent: string, key: string, raw: string)
    requires AllSpace(indent) && Neutral(indent) && ProperKey(key) && Neutral(raw)
    ensures Neutral(indent + KeyLine(key, raw)) && Neutral(indent + KeyLine(key, raw) + " ")
  {
    PlainIsNeutral(key + " = ");
    PlainIsNeutral(" ");
    NeutralConcat(indent, key + " = ");
    NeutralConcat(indent + (key + " = "), raw);
    assert indent + KeyLine(key, raw) == indent + (key + " = ") + raw;
    NeutralConcat(indent + KeyLine(key, raw), " ");
  }

  lemma CommentOf(front: string, comment: string)
    requires Neutral(front) && Neutral(front + " ") && Trimmed(comment) && (comment != "" ==> comment[0] == '#')
    ensures LineComment(front + Tail(comment)) == comment
  {
    if comment == "" {
      assert front + Tail(comment) == front;
      CommentShape(front);
    } else {
      assert front + Tail(comment) == (front + " ") + comment;
      CommentBehind(front + " ", comment);
      assert ((front + " ") + comment)[|front + " "|..] == comment;
      TrimTrimmed(comment);
    }
  }

  lemma ReplacedKeepsComment(line: string, key: string, raw: string)
    requires ProperKey(key) && Neutral(raw)
    ensures LineComment(ReplaceValue(line, key, raw)) == LineComment(line)
  {
    var indent := LeadingBlanks(line);
    BlanksAreSpace(indent);
    FrontNeutral(indent, key, raw);
    CommentShape(line);
    CommentOf(indent + KeyLine(key, raw), LineComment(line));
  }

  /** The replaced line keeps the indentation and the trailing comment. */
  lemma ReplacedKeeps(line: string, key: string, raw: string)
    requires ProperKey(key) && Neutral(raw)
    ensures LeadingBlanks(ReplaceValue(line, key, raw)) == LeadingBlanks(line)
    ensures LineComment(ReplaceValue(line, key, raw)) == LineComment(line)
  {
    ReplacedKeepsIndent(line, key, raw);
    ReplacedKeepsComment(line, key, raw);
  }

  /** Replacing twice is replacing once with the second value. */
  lemma ReplaceTwice(line: string, key: string, v: string, w: string)
    requires ProperKey(key) && Neutral(v)
    ensures ReplaceValue(ReplaceValue(line, key, v), key, w) == ReplaceValue(line, key, w)
  {
    ReplacedKeeps(line, key, v);
  }

  lemma FreshIsReplaced(key: string, raw: string)
    ensures ReplaceValue("", key, raw) == KeyLine(key, raw)
  {
    CommentShape("");
    assert LeadingBlanks("") == "";
    assert "" + KeyLine(key, raw) + "" == KeyLine(key, raw);
  }

  /** A freshly inserted line behaves like a replaced one with no indentation and no comment. */
  lemma FreshLine(key: string, raw: string)
    requires ProperKey(key) && Neutral(raw) && Trimmed(raw)
    ensures MatchKey(KeyLine(key, raw), key) && ValueOf(KeyLine(key, raw)) == raw
    ensures !IsHeader(KeyLine(key, raw)) && !Blank(KeyLine(key, raw))
  {
    FreshIsReplaced(key, raw);
    ReplacedReads("", key, raw);
  }

  lemma FreshThenReplace(key: string, v: string, w: string)
    requires ProperKey(key) && Neutral(v)
    ensures ReplaceValue(KeyLine(key, v), key, w) == KeyLine(key, w)
  {
    FreshIsReplaced(key, v);
    FreshIsReplaced(key, w);
    ReplaceTwice("", key, v, w);
  }
}
