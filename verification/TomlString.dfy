/** config/config.go: quoteTomlString, that is strconv.Quote, against the basic strings of the TOML
    specification (v1.0.0, and v1.1.0 which adds two escapes). */
module TomlString {
  import opened Wrappers
  import opened Text
  import opened TomlLine

  function HexDigit(n: nat): char
    requires n < 16
  {
    if n < 10 then (n + '0' as int) as char else (n - 10 + 'a' as int) as char
  }

  function HexValue(c: char): Option<nat> {
    if '0' <= c <= '9' then Some(c as int - '0' as int)
    else if 'a' <= c <= 'f' then Some(c as int - 'a' as int + 10)
    else if 'A' <= c <= 'F' then Some(c as int - 'A' as int + 10)
    else None
  }

  predicate Control(c: char) {
    c as int < 0x20 || c as int == 0x7F
  }

  /** strconv.Quote on one rune; runes beyond ASCII are taken to be printable. */
  function Escape(c: char): string {
    if c == '"' then "\\\""
    else if c == '\\' then "\\\\"
    else if c as int == 7 then "\\a"
    else if c as int == 8 then "\\b"
    else if c as int == 12 then "\\f"
    else if c == '\n' then "\\n"
    else if c == '\r' then "\\r"
    else if c == '\t' then "\\t"
    else if c as int == 11 then "\\v"
    else if Control(c) then "\\x" + [HexDigit(c as int / 16), HexDigit(c as int % 16)]
    else [c]
  }

  function Escaped(v: string): string {
    if v == [] then [] else Escape(v[0]) + Escaped(v[1..])
  }

  function Quote(v: string): string {
    "\"" + Escaped(v) + "\""
  }

  // --- What the line editor needs to know about a quoted value ---

  const INSIDE: Scan := Scan(true, false)

  /** Scanning from inside the quotes stays inside them. */
  lemma EscapeScans(c: char)
    ensures CommentAt(Escape(c), INSIDE) == |Escape(c)| && After(Escape(c), INSIDE) == INSIDE
    ensures forall i :: 0 <= i < |Escape(c)| ==> Escape(c)[i] != '\n'
  {
    var e := Escape(c);
    if |e| == 1 {
      assert e[1..] == "";
    } else {
      var st := Scan(true, true);
      assert e[0] == '\\' && Next(INSIDE, '\\') == st;
      assert e[1..][0] == e[1] && Next(st, e[1]) == INSIDE;
      var rest := e[1..][1..];
      assert CommentAt(e, INSIDE) == 1 + CommentAt(e[1..], st) && After(e, INSIDE) == After(e[1..], st);
      assert CommentAt(e[1..], st) == 1 + CommentAt(rest, INSIDE) && After(e[1..], st) == After(rest, INSIDE);
      if |e| > 2 {
        assert rest == [e[2], e[3]];
      }
      PlainInside(rest);
    }
  }

  lemma PlainInside(s: string)
    requires forall i :: 0 <= i < |s| ==> s[i] != '"' && s[i] != '\\'
    ensures CommentAt(s, INSIDE) == |s| && After(s, INSIDE) == INSIDE
  {
    if s != [] {
      PlainInside(s[1..]);
    }
  }

  lemma {:induction false} EscapedScans(v: string)
    ensures CommentAt(Escaped(v), INSIDE) == |Escaped(v)| && After(Escaped(v), INSIDE) == INSIDE
    ensures forall i :: 0 <= i < |Escaped(v)| ==> Escaped(v)[i] != '\n'
  {
    if v != [] {
      EscapedScans(v[1..]);
      EscapeScans(v[0]);
      ScanConcat(Escape(v[0]), Escaped(v[1..]), INSIDE);
    }
  }

  /** A quoted value never exposes a bare quote, '#' or newline: the scanner passes over it. */
  lemma QuoteIsNeutral(v: string)
    ensures Neutral(Quote(v)) && Trimmed(Quote(v))
    ensures forall i :: 0 <= i < |Quote(v)| ==> Quote(v)[i] != '\n'
  {
    EscapedScans(v);
    assert CommentAt("\"", OUTSIDE) == 1 && After("\"", OUTSIDE) == INSIDE by { assert "\""[1..] == ""; }
    assert CommentAt("\"", INSIDE) == 1 && After("\"", INSIDE) == OUTSIDE by { assert "\""[1..] == ""; }
    ScanConcat("\"", Escaped(v), OUTSIDE);
    ScanConcat("\"" + Escaped(v), "\"", OUTSIDE);
  }

  // --- Reading it back as TOML ---

  datatype Version = V10 | V11

  function Cons(c: char, r: Option<string>): Option<string> {
    if r.Some? then Some([c] + r.value) else None
  }

  function ScalarChar(n: nat): Option<char> {
    if n < 0xD800 || 0xE000 <= n < 0x11_0000 then Some(n as char) else None
  }

  /** The value of n hexadecimal digits. */
  function HexNumber(s: string): Option<nat> {
    if s == [] then Some(0)
    else
      var front, d := HexNumber(s[..|s| - 1]), HexValue(s[|s| - 1]);
      if front.Some? && d.Some? then Some(16 * front.value + d.value) else None
  }

  /** The character named by an escape and the length of the escape; None when TOML reserves it. */
  function TomlEscape(s: string, ver: Version): Option<(char, nat)>
    requires |s| >= 2 && s[0] == '\\'
  {
    var hex := (n: nat) =>
      if |s| < n + 2 || HexNumber(s[2..n + 2]).None? || ScalarChar(HexNumber(s[2..n + 2]).value).None? then None
      else Some((ScalarChar(HexNumber(s[2..n + 2]).value).value, n + 2));
    match s[1]
    case 'b' => Some((8 as char, 2))
    case 't' => Some(('\t', 2))
    case 'n' => Some(('\n', 2))
    case 'f' => Some((12 as char, 2))
    case 'r' => Some(('\r', 2))
    case '"' => Some(('"', 2))
    case '\\' => Some(('\\', 2))
    case 'u' => hex(4)
    case 'U' => hex(8)
    case 'e' => if ver.V11? then Some((27 as char, 2)) else None
    case 'x' => if ver.V11? then hex(2) else None
    case _ => None
  }

  /** The rest of a basic string up to and including its closing quote, which must end the text. */
  function DecodeRest(s: string, ver: Version): Option<string>
    decreases |s|
  {
    if s == [] then None
    else if s[0] == '"' then if |s| == 1 then Some("") else None
    else if s[0] == '\\' then
      if |s| < 2 || TomlEscape(s, ver).None? then None
      else
        var e := TomlEscape(s, ver).value;
        if 0 < e.1 <= |s| then Cons(e.0, DecodeRest(s[e.1..], ver)) else None
    else if Control(s[0]) && s[0] != '\t' then None
    else Cons(s[0], DecodeRest(s[1..], ver))
  }

  function Decode(s: string, ver: Version): Option<string> {
    if s != [] && s[0] == '"' then DecodeRest(s[1..], ver) else None
  }

  /** Bell and vertical tab, whose Go escapes TOML does not have; and, before TOML 1.1, every other
      control character that has no one-letter escape. */
  predicate Awkward(c: char, ver: Version) {
    c as int == 7 || c as int == 11
    || (ver.V10? && Control(c) && c as int != 8 && c as int != 12 && c != '\n' && c != '\r' && c != '\t')
  }

  lemma HexByte(c: char)
    requires c as int < 256
    ensures HexNumber([HexDigit(c as int / 16), HexDigit(c as int % 16)]) == Some(c as int)
  {
    var h, l := HexDigit(c as int / 16), HexDigit(c as int % 16);
    assert [h, l][..1] == [h] && [h][..0] == "";
    assert HexNumber([h]) == Some(c as int / 16);
  }

  lemma EscapeDecodes(c: char, rest: string, ver: Version)
    ensures DecodeRest(Escape(c) + rest, ver) == if Awkward(c, ver) then None else Cons(c, DecodeRest(rest, ver))
  {
    var e := Escape(c);
    var s := e + rest;
    if |e| == 1 {
      assert s[1..] == rest;
    } else if |e| == 2 {
      assert s[2..] == rest;
    } else {
      assert s[2..4] == [e[2], e[3]];
      HexByte(c);
      assert s[4..] == rest;
    }
  }

  lemma {:induction false} EscapedDecodes(v: string, ver: Version)
    ensures DecodeRest(Escaped(v) + "\"", ver) == if exists i :: 0 <= i < |v| && Awkward(v[i], ver) then None else Some(v)
  {
    if v == [] {
      assert Escaped(v) + "\"" == "\"";
    } else {
      EscapedDecodes(v[1..], ver);
      assert Escaped(v) + "\"" == Escape(v[0]) + (Escaped(v[1..]) + "\"");
      EscapeDecodes(v[0], Escaped(v[1..]) + "\"", ver);
      if exists i :: 0 <= i < |v| && Awkward(v[i], ver) {
        var i :| 0 <= i < |v| && Awkward(v[i], ver);
        if i > 0 { assert Awkward(v[1..][i - 1], ver); }
      } else {
        assert forall i :: 0 <= i < |v[1..]| ==> v[1..][i] == v[i + 1];
        assert [v[0]] + v[1..] == v;
      }
    }
  }

  /** Reading a quoted value back as TOML gives the value, if and only if it contains no awkward
      character; otherwise the text is not a TOML string at all. */
  lemma QuoteRoundTripIff(v: string, ver: Version)
    ensures Decode(Quote(v), ver) == Some(v) <==> forall i :: 0 <= i < |v| ==> !Awkward(v[i], ver)
    ensures Decode(Quote(v), ver) != Some(v) ==> Decode(Quote(v), ver) == None
  {
    assert Quote(v)[1..] == Escaped(v) + "\"";
    EscapedDecodes(v, ver);
  }

  /** Different values are quoted differently. */
  lemma QuoteInjective(v: string, w: string)
    requires Quote(v) == Quote(w)
    requires forall i :: 0 <= i < |v| ==> !Awkward(v[i], V11)
    requires forall i :: 0 <= i < |w| ==> !Awkward(w[i], V11)
    ensures v == w
  {
    QuoteRoundTripIff(v, V11);
    QuoteRoundTripIff(w, V11);
  }
}
