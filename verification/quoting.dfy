/** Go string literals as produced by `strconv.Quote` and read by `strconv.Unquote`,
    restricted to the one-letter escapes (`\a \b \f \n \r \t \v \\ \"`). Numeric escapes
    (`\x`, `\u`, `\U`, octal) and single-quoted rune literals are not part of this model. */
module Quoting {
  import opened Wrappers

  /** The character a one-letter escape `\e` stands for inside a double-quoted literal;
      `\'` is refused there, as in Go. */
  function SimpleEscape(e: char): Option<char> {
    match e
    case 'a' => Some('\U{7}')
    case 'b' => Some('\U{8}')
    case 'f' => Some('\U{C}')
    case 'n' => Some('\n')
    case 'r' => Some('\r')
    case 't' => Some('\t')
    case 'v' => Some('\U{B}')
    case '\\' => Some('\\')
    case '"' => Some('"')
    case _ => None
  }

  /** How `strconv.Quote` spells one character between the double quotes. */
  function EscapeChar(c: char): string {
    match c
    case '"' => "\\\""
    case '\\' => "\\\\"
    case '\U{7}' => "\\a"
    case '\U{8}' => "\\b"
    case '\U{C}' => "\\f"
    case '\n' => "\\n"
    case '\r' => "\\r"
    case '\t' => "\\t"
    case '\U{B}' => "\\v"
    case _ => [c]
  }

  /** A character `strconv.Quote` copies unchanged. */
  predicate Plain(c: char) {
    EscapeChar(c) == [c]
  }

  function Escape(s: string): string
    decreases |s|
  {
    if |s| == 0 then "" else EscapeChar(s[0]) + Escape(s[1..])
  }

  lemma {:induction false} EscapePlain(s: string)
    requires forall i :: 0 <= i < |s| ==> Plain(s[i])
    ensures Escape(s) == s
    decreases |s|
  {
    if |s| > 0 {
      EscapePlain(s[1..]);
    }
  }

  /** `strconv.Quote`: a double-quoted literal; text made only of plain characters is
      simply wrapped in quotes. */
  function Quote(s: string): (q: string)
    ensures |q| >= 2 && q[0] == '"' && q[|q| - 1] == '"'
    ensures (forall i :: 0 <= i < |s| ==> Plain(s[i])) ==> q == "\"" + s + "\""
  {
    if forall i :: 0 <= i < |s| ==> Plain(s[i]) then EscapePlain(s); "\"" + Escape(s) + "\""
    else "\"" + Escape(s) + "\""
  }

  /** Removes every carriage return, as Go does inside a raw (back-quoted) literal. */
  function DropCR(s: string): (r: string)
    ensures '\r' !in r
    ensures |r| <= |s|
    decreases |s|
  {
    if |s| == 0 then "" else (if s[0] == '\r' then "" else [s[0]]) + DropCR(s[1..])
  }

  /** Decodes the text after an opening double quote. The literal must end at the first
      unescaped double quote, which must be the last character; a raw newline or an
      unknown escape makes it invalid. */
  function UnquoteBody(t: string): (r: Option<string>)
    ensures r.Some? ==> |t| >= 1 && t[|t| - 1] == '"'
    ensures r.Some? ==> '\n' !in t
    decreases |t|
  {
    if |t| == 0 then None
    else if t[0] == '"' then (if |t| == 1 then Some("") else None)
    else if t[0] == '\n' then None
    else if t[0] == '\\' then
      if |t| < 2 then None
      else match SimpleEscape(t[1])
        case None => None
        case Some(c) =>
          match UnquoteBody(t[2..])
          case None => None
          case Some(rest) =>
            assert t == t[..2] + t[2..];
            Some([c] + rest)
    else
      match UnquoteBody(t[1..])
      case None => None
      case Some(rest) =>
        assert t == [t[0]] + t[1..];
        Some([t[0]] + rest)
  }

  /** `strconv.Unquote` for double-quoted and back-quoted literals. */
  function Unquote(s: string): (r: Option<string>)
    ensures r.Some? ==> |s| >= 2 && (s[0] == '"' || s[0] == '`') && s[|s| - 1] == s[0]
    ensures r.Some? && s[0] == '"' ==> '\n' !in s
  {
    if |s| < 2 then None
    else if s[0] == '`' then
      if s[|s| - 1] == '`' && '`' !in s[1..|s| - 1] then Some(DropCR(s[1..|s| - 1])) else None
    else if s[0] == '"' then
      var r := UnquoteBody(s[1..]);
      assert r.Some? ==> s == [s[0]] + s[1..];
      r
    else None
  }

  /** Each escaped spelling decodes back to the character it stands for. */
  lemma EscapeCharDecodes(c: char)
    ensures |EscapeChar(c)| == 1 || |EscapeChar(c)| == 2
    ensures |EscapeChar(c)| == 2 ==> EscapeChar(c)[0] == '\\' && SimpleEscape(EscapeChar(c)[1]) == Some(c)
    ensures |EscapeChar(c)| == 1 ==> EscapeChar(c) == [c] && c != '"' && c != '\\' && c != '\n'
  {
  }

  lemma {:induction false} UnquoteBodyEscape(s: string)
    ensures UnquoteBody(Escape(s) + "\"") == Some(s)
    decreases |s|
  {
    if |s| > 0 {
      UnquoteBodyEscape(s[1..]);
      var t := Escape(s) + "\"";
      var e := EscapeChar(s[0]);
      assert t == e + (Escape(s[1..]) + "\"");
      EscapeCharDecodes(s[0]);
      assert s == [s[0]] + s[1..];
      if |e| == 2 {
        assert t[0] == '\\' && t[1] == e[1];
        assert t[2..] == Escape(s[1..]) + "\"";
      } else {
        assert t[1..] == Escape(s[1..]) + "\"";
      }
    }
  }

  /** Every string survives `Quote` followed by `Unquote`. */
  lemma QuoteRoundTrip(s: string)
    ensures Unquote(Quote(s)) == Some(s)
  {
    UnquoteBodyEscape(s);
    var q := Quote(s);
    assert q[1..] == Escape(s) + "\"";
  }

  /** A literal with no quote, backslash or newline between its double quotes unquotes
      to exactly that text (the escape-free path of `strconv.Unquote`). */
  lemma {:induction false} UnquoteBodyVerbatim(x: string)
    requires forall i :: 0 <= i < |x| ==> x[i] != '"' && x[i] != '\\' && x[i] != '\n'
    ensures UnquoteBody(x + "\"") == Some(x)
    decreases |x|
  {
    if |x| > 0 {
      UnquoteBodyVerbatim(x[1..]);
      assert (x + "\"")[1..] == x[1..] + "\"";
      assert x == [x[0]] + x[1..];
    }
  }

  lemma UnquoteVerbatim(x: string)
    requires forall i :: 0 <= i < |x| ==> x[i] != '"' && x[i] != '\\' && x[i] != '\n'
    ensures Unquote("\"" + x + "\"") == Some(x)
  {
    UnquoteBodyVerbatim(x);
    assert ("\"" + x + "\"")[1..] == x + "\"";
  }

  lemma {:induction false} DropCRVerbatim(x: string)
    requires '\r' !in x
    ensures DropCR(x) == x
    decreases |x|
  {
    if |x| > 0 {
      DropCRVerbatim(x[1..]);
      assert x == [x[0]] + x[1..];
    }
  }

  /** A back-quoted literal with no back quote or carriage return inside unquotes to
      exactly its text. */
  lemma UnquoteRaw(x: string)
    requires '`' !in x && '\r' !in x
    ensures Unquote("`" + x + "`") == Some(x)
  {
    var s := "`" + x + "`";
    assert s[1..|s| - 1] == x;
    DropCRVerbatim(x);
  }
}
