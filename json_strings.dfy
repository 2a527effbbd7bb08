/** `JSON.parse` restricted to what the front-matter reader feeds it: a JSON array
    whose elements are JSON string literals. Anything else is reported as a parse
    failure (see README, "Left out"). `EncodeArray` is an independent writer of such
    arrays, used to state the round trip. */
module JsonStrings {
  import opened Wrappers
  import opened JsString

  /** Insignificant whitespace between JSON tokens. */
  predicate IsJsonSpace(c: char)
  {
    c == ' ' || c == '\t' || c == '\n' || c == '\r'
  }

  function SkipSpace(s: string): (r: string)
    ensures |r| <= |s|
  {
    if |s| > 0 && IsJsonSpace(s[0]) then SkipSpace(s[1..]) else s
  }

  /** The character a one-letter escape `\x` stands for, if `x` is one. */
  function SimpleEscape(x: char): Option<char>
  {
    match x
    case '"' => Some('"')
    case '\\' => Some('\\')
    case '/' => Some('/')
    case 'b' => Some('\U{8}')
    case 'f' => Some('\U{C}')
    case 'n' => Some('\n')
    case 'r' => Some('\r')
    case 't' => Some('\t')
    case _ => None
  }

  /** `s` begins with four hexadecimal digits. */
  predicate StartsWithHex4(s: string)
  {
    |s| >= 4 && IsHexDigit(s[0]) && IsHexDigit(s[1]) && IsHexDigit(s[2]) && IsHexDigit(s[3])
  }

  /** The value of the four hexadecimal digits `s` begins with. */
  function Hex4(s: string): (v: nat)
    requires StartsWithHex4(s)
    ensures v < 0x10000
  {
    ((HexValue(s[0]) * 16 + HexValue(s[1])) * 16 + HexValue(s[2])) * 16 + HexValue(s[3])
  }

  /** Reads the body of a string literal up to and including its closing quote;
      gives the decoded characters and what follows the quote. */
  function ParseStringBody(s: string): (r: Option<(string, string)>)
    ensures r.Some? ==> |r.value.1| < |s|
    decreases |s|
  {
    if s == [] then None
    else if s[0] == '"' then Some(([], s[1..]))
    else if s[0] < ' ' then None
    else if s[0] != '\\' then
      match ParseStringBody(s[1..])
      case None => None
      case Some(p) => Some(([s[0]] + p.0, p.1))
    else if |s| < 2 then None
    else if s[1] == 'u' then
      if !StartsWithHex4(s[2..]) then None
      else
        var v := Hex4(s[2..]);
        if 0xD800 <= v < 0xE000 then None
        else
          match ParseStringBody(s[6..])
          case None => None
          case Some(p) => Some(([v as char] + p.0, p.1))
    else
      match SimpleEscape(s[1])
      case None => None
      case Some(c) =>
        match ParseStringBody(s[2..])
        case None => None
        case Some(p) => Some(([c] + p.0, p.1))
  }

  /** Reads `"str" (, "str")* ]` and gives the strings and what follows the `]`. */
  function ParseElements(s: string): (r: Option<(seq<string>, string)>)
    decreases |s|
  {
    if s == [] || s[0] != '"' then None
    else
      match ParseStringBody(s[1..])
      case None => None
      case Some(p) =>
        var after := SkipSpace(p.1);
        if after == [] then None
        else if after[0] == ']' then Some(([p.0], after[1..]))
        else if after[0] != ',' then None
        else
          match ParseElements(SkipSpace(after[1..]))
          case None => None
          case Some(q) => Some(([p.0] + q.0, q.1))
  }

  /** `JSON.parse(text)` for a text that must denote an array of strings. */
  function DecodeArray(text: string): Option<seq<string>>
  {
    var s := SkipSpace(text);
    if s == [] || s[0] != '[' then None
    else
      var body := SkipSpace(s[1..]);
      if body != [] && body[0] == ']' then
        if SkipSpace(body[1..]) == [] then Some([]) else None
      else
        match ParseElements(body)
        case None => None
        case Some(p) => if SkipSpace(p.1) == [] then Some(p.0) else None
  }

  function HexDigitChar(d: nat): (c: char)
    requires d < 16
    ensures IsHexDigit(c) && HexValue(c) == d
  {
    if d < 10 then ('0' as int + d) as char else ('a' as int + d - 10) as char
  }

  /** How a writer escapes one character inside a string literal. */
  function EscapeChar(c: char): string
  {
    if c == '"' then "\\\""
    else if c == '\\' then "\\\\"
    else if c < ' ' then "\\u00" + [HexDigitChar(c as int / 16), HexDigitChar(c as int % 16)]
    else [c]
  }

  function Escape(s: string): string
  {
    if s == [] then "" else EscapeChar(s[0]) + Escape(s[1..])
  }

  /** The writer's text for the elements of a non-empty array, then `]`, then `k`. */
  function EncodeElementsThen(xs: seq<string>, k: string): string
    requires |xs| >= 1
  {
    "\"" + (Escape(xs[0]) + ("\"" + (if |xs| == 1 then "]" + k else "," + EncodeElementsThen(xs[1..], k))))
  }

  /** A JSON text for an array of strings. */
  function EncodeArray(xs: seq<string>): string
  {
    if xs == [] then "[]" else "[" + EncodeElementsThen(xs, "")
  }

  lemma EscapeCharRead(c: char, rest: string)
    ensures ParseStringBody(EscapeChar(c) + rest) ==
              match ParseStringBody(rest)
              case None => None
              case Some(p) => Some(([c] + p.0, p.1))
  {
    var e := EscapeChar(c) + rest;
    if c == '"' || c == '\\' {
      assert e[2..] == rest;
    } else if c < ' ' {
      var hi, lo := HexDigitChar(c as int / 16), HexDigitChar(c as int % 16);
      assert e[2..6] == ['0', '0', hi, lo];
      assert e[6..] == rest;
      assert Hex4(e[2..]) == c as int;
    } else {
      assert e[1..] == rest;
    }
  }

  /** The decoder reads an escaped string body back, up to the closing quote. */
  lemma {:induction false} EscapeRead(s: string, rest: string)
    ensures ParseStringBody(Escape(s) + ("\"" + rest)) == Some((s, rest))
  {
    if s == [] {
      assert Escape(s) + ("\"" + rest) == "\"" + rest;
    } else {
      var tail := Escape(s[1..]) + ("\"" + rest);
      EscapeRead(s[1..], rest);
      EscapeUnfold(s, "\"" + rest);
      EscapeCharRead(s[0], tail);
      assert [s[0]] + s[1..] == s;
    }
  }

  lemma EscapeUnfold(s: string, k: string)
    requires s != []
    ensures Escape(s) + k == EscapeChar(s[0]) + (Escape(s[1..]) + k)
  {
    var a, b := EscapeChar(s[0]), Escape(s[1..]);
    assert Escape(s) == a + b;
    assert (a + b) + k == a + (b + k);
  }

  lemma ElementsLast(s: string, x: string, rest: string)
    requires |s| > 0 && s[0] == '"'
    requires ParseStringBody(s[1..]) == Some((x, "]" + rest))
    ensures ParseElements(s) == Some(([x], rest))
  {
    var tail := "]" + rest;
    assert SkipSpace(tail) == tail;
    assert tail[1..] == rest;
  }

  lemma ElementsMore(s: string, x: string, more: string, ys: seq<string>, rest: string)
    requires |s| > 0 && s[0] == '"'
    requires ParseStringBody(s[1..]) == Some((x, "," + more))
    requires ParseElements(SkipSpace(more)) == Some((ys, rest))
    ensures ParseElements(s) == Some(([x] + ys, rest))
  {
    var tail := "," + more;
    assert SkipSpace(tail) == tail;
    assert tail[1..] == more;
  }

  /** The decoder reads the writer's elements back, up to the closing bracket. */
  lemma {:induction false} ElementsRead(xs: seq<string>, rest: string)
    requires |xs| >= 1
    ensures ParseElements(EncodeElementsThen(xs, rest)) == Some((xs, rest))
  {
    var e := EncodeElementsThen(xs, rest);
    var after := if |xs| == 1 then "]" + rest else "," + EncodeElementsThen(xs[1..], rest);
    assert e[1..] == Escape(xs[0]) + ("\"" + after);
    EscapeRead(xs[0], after);
    if |xs| == 1 {
      ElementsLast(e, xs[0], rest);
      assert [xs[0]] == xs;
    } else {
      ElementsRead(xs[1..], rest);
      assert SkipSpace(EncodeElementsThen(xs[1..], rest)) == EncodeElementsThen(xs[1..], rest);
      ElementsMore(e, xs[0], EncodeElementsThen(xs[1..], rest), xs[1..], rest);
      assert [xs[0]] + xs[1..] == xs;
    }
  }

  /** Decoding what the writer wrote gives the array back. */
  lemma ArrayRoundTrip(xs: seq<string>)
    ensures DecodeArray(EncodeArray(xs)) == Some(xs)
  {
    if xs != [] {
      var t := EncodeArray(xs);
      var body := EncodeElementsThen(xs, "");
      ElementsRead(xs, "");
      assert SkipSpace(t) == t;
      assert t[1..] == body;
      assert SkipSpace(body) == body;
    }
  }

  lemma LastElementB()
    ensures ParseElements("\"b\"]") == Some((["b"], ""))
  {
    var b := "\"b\"]";
    var b2 := "\"]";
    assert b[1..] == EscapeChar('b') + b2;
    assert b2[1..] == "]" + "";
    EscapeCharRead('b', b2);
    assert ['b'] + [] == "b";
    ElementsLast(b, "b", "");
  }

  lemma ElementsAB()
    ensures ParseElements("\"a\", \"b\"]") == Some((["a", "b"], ""))
  {
    var a := "\"a\", \"b\"]";
    var b := "\"b\"]";
    var a2 := "\", \"b\"]";
    var a3 := ", \"b\"]";
    assert a[1..] == EscapeChar('a') + a2;
    assert a2[1..] == a3;
    EscapeCharRead('a', a2);
    assert ['a'] + [] == "a" && a3 == "," + (" " + b);
    assert SkipSpace(" " + b) == b;
    LastElementB();
    ElementsMore(a, "a", " " + b, ["b"], "");
    assert ["a"] + ["b"] == ["a", "b"];
  }

  /** An array of string literals, with spaces after the commas, parses to its strings. */
  lemma QuotedPairDecodes()
    ensures DecodeArray("[\"a\", \"b\"]") == Some(["a", "b"])
  {
    var t := "[\"a\", \"b\"]";
    ElementsAB();
    assert t[1..] == "\"a\", \"b\"]";
    assert SkipSpace(t) == t && SkipSpace(t[1..]) == t[1..];
  }

  /** Unquoted elements are not JSON: parsing fails instead of keeping the text. */
  lemma UnquotedPairFails()
    ensures DecodeArray("[a, b]") == None
  {
  }
}
