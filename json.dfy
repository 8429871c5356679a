/** JSON text as the fixture pipeline produces and consumes it: Python's
 *  `json.dumps` of a string (with its default `ensure_ascii`), and a decoder
 *  for JSON values (RFC 8259) standing for Go's `encoding/json`. */
module Json {
  import opened Text

  datatype Value =
    | Null
    | Number(text: string)
    | Str(s: string)
    | Array(items: seq<Value>)
    | Object(members: seq<Member>)

  datatype Member = Member(name: string, value: Value)

  // ---------------------------------------------------------------------
  // Encoding a string (json.dumps with ensure_ascii)

  function HexDigit(d: nat): char
    requires d < 16
  {
    "0123456789abcdef"[d]
  }

  /** Python's '{0:04x}'. */
  function Hex4(n: nat): (r: string)
    requires n < 0x10000
    ensures |r| == 4
  {
    [HexDigit(n / 16 / 16 / 16), HexDigit(n / 16 / 16 % 16), HexDigit(n / 16 % 16), HexDigit(n % 16)]
  }

  /** True for the characters json.dumps writes as themselves. */
  predicate Plain(c: char) {
    ' ' <= c <= '~' && c != '"' && c != '\\'
  }

  /** How json.dumps writes one character: the two-character escapes, the
   *  printable ASCII range as is, everything else as \uXXXX, and characters
   *  beyond the Basic Multilingual Plane as a surrogate pair. */
  function EscapeChar(c: char): (r: string)
    ensures |r| >= 1
  {
    if Plain(c) then [c]
    else if c == '"' then "\\\""
    else if c == '\\' then "\\\\"
    else if c == '\n' then "\\n"
    else if c == '\r' then "\\r"
    else if c == '\t' then "\\t"
    else if c == '\U{08}' then "\\b"
    else if c == '\U{0C}' then "\\f"
    else if (c as int) < 0x10000 then "\\u" + Hex4(c as int)
    else "\\u" + Hex4(HighSurrogate(c as int)) + "\\u" + Hex4(LowSurrogate(c as int))
  }

  function HighSurrogate(cp: int): (r: nat)
    requires 0x10000 <= cp < 0x110000
    ensures 0xD800 <= r < 0xDC00
  {
    0xD800 + (cp - 0x10000) / 0x400
  }

  function LowSurrogate(cp: int): (r: nat)
    requires 0x10000 <= cp < 0x110000
    ensures 0xDC00 <= r < 0xE000
  {
    0xDC00 + (cp - 0x10000) % 0x400
  }

  function Escaped(s: string): string
    decreases |s|
  {
    if s == [] then "" else EscapeChar(s[0]) + Escaped(s[1..])
  }

  /** json.dumps(s) for a str s. */
  function Quote(s: string): (r: string)
    ensures |r| >= 2 && r[0] == '"'
  {
    "\"" + Escaped(s) + "\""
  }

  // ---------------------------------------------------------------------
  // Decoding

  function HexValue(c: char): Option<nat> {
    if '0' <= c <= '9' then Some(c as int - '0' as int)
    else if 'a' <= c <= 'f' then Some(c as int - 'a' as int + 10)
    else if 'A' <= c <= 'F' then Some(c as int - 'A' as int + 10)
    else None
  }

  function Hex4Value(s: string): (r: Option<nat>)
    requires |s| == 4
    ensures r.Some? ==> r.value < 0x10000
  {
    match (HexValue(s[0]), HexValue(s[1]), HexValue(s[2]), HexValue(s[3]))
    case (Some(a), Some(b), Some(c), Some(d)) =>
      if a < 16 && b < 16 && c < 16 && d < 16 then Some(((a * 16 + b) * 16 + c) * 16 + d) else None
    case _ => None
  }

  lemma HexDigitValue(d: nat)
    requires d < 16
    ensures HexValue(HexDigit(d)) == Some(d)
  {
  }

  lemma Hex4RoundTrip(n: nat)
    requires n < 0x10000
    ensures Hex4Value(Hex4(n)) == Some(n)
  {
    var q1 := n / 16;
    var q2 := q1 / 16;
    var q3 := q2 / 16;
    assert n == q1 * 16 + n % 16;
    assert q1 == q2 * 16 + q1 % 16;
    assert q2 == q3 * 16 + q2 % 16;
    assert q3 < 16;
    HexDigitValue(q3);
    HexDigitValue(q2 % 16);
    HexDigitValue(q1 % 16);
    HexDigitValue(n % 16);
  }

  /** The character a backslash escape stands for, and the text after it.
   *  s starts just after the backslash. A high surrogate must be followed by
   *  an escaped low surrogate; a lone surrogate is refused. */
  function Unescape(s: string): (r: Option<(char, string)>)
    ensures r.Some? ==> |r.value.1| < |s|
  {
    if s == [] then None
    else if s[0] == '"' then Some(('"', s[1..]))
    else if s[0] == '\\' then Some(('\\', s[1..]))
    else if s[0] == '/' then Some(('/', s[1..]))
    else if s[0] == 'b' then Some(('\U{08}', s[1..]))
    else if s[0] == 'f' then Some(('\U{0C}', s[1..]))
    else if s[0] == 'n' then Some(('\n', s[1..]))
    else if s[0] == 'r' then Some(('\r', s[1..]))
    else if s[0] == 't' then Some(('\t', s[1..]))
    else if s[0] == 'u' then UnicodeEscape(s[1..])
    else None
  }

  /** A \uXXXX escape (or surrogate pair); s starts after the "u". */
  function UnicodeEscape(s: string): (r: Option<(char, string)>)
    ensures r.Some? ==> |r.value.1| < |s|
  {
    if |s| < 4 then None
    else
      match Hex4Value(s[..4])
      case None => None
      case Some(v) =>
        if 0xD800 <= v < 0xDC00 then
          if |s| >= 10 && s[4] == '\\' && s[5] == 'u' then
            match Hex4Value(s[6..10])
            case Some(w) =>
              if 0xDC00 <= w < 0xE000 then
                Some(((0x10000 + (v - 0xD800) * 0x400 + (w - 0xDC00)) as char, s[10..]))
              else None
            case None => None
          else None
        else if 0xDC00 <= v < 0xE000 then None
        else Some((v as char, s[4..]))
  }

  /** The characters of a string literal up to its closing quote, and the
   *  text after that quote. s starts just after the opening quote. */
  function StringBody(s: string): (r: Option<(string, string)>)
    ensures r.Some? ==> |r.value.1| < |s|
    decreases |s|
  {
    if s == [] then None
    else if s[0] == '"' then Some(("", s[1..]))
    else if s[0] == '\\' then
      match Unescape(s[1..])
      case None => None
      case Some((c, rest)) =>
        match StringBody(rest)
        case None => None
        case Some((t, after)) => Some(([c] + t, after))
    else if (s[0] as int) < 0x20 then None
    else
      match StringBody(s[1..])
      case None => None
      case Some((t, after)) => Some(([s[0]] + t, after))
  }

  predicate IsWs(c: char) {
    c == ' ' || c == '\t' || c == '\n' || c == '\r'
  }

  function SkipWs(s: string): (r: string)
    ensures |r| <= |s| && r == s[|s| - |r|..]
    ensures r == [] || !IsWs(r[0])
  {
    if s != [] && IsWs(s[0]) then SkipWs(s[1..]) else s
  }

  predicate IsDigit(c: char) {
    '0' <= c <= '9'
  }

  predicate NumberChar(c: char) {
    IsDigit(c) || c == '-' || c == '+' || c == '.' || c == 'e' || c == 'E'
  }

  function NumberLen(s: string): (n: nat)
    ensures n <= |s|
    ensures forall k :: 0 <= k < n ==> NumberChar(s[k])
    ensures n == |s| || !NumberChar(s[n])
  {
    if s != [] && NumberChar(s[0]) then 1 + NumberLen(s[1..]) else 0
  }

  predicate AllDigits(s: string) {
    s != [] && forall k :: 0 <= k < |s| ==> IsDigit(s[k])
  }

  /** The number of leading digits of s. */
  function DigitRun(s: string): (n: nat)
    ensures n <= |s|
    ensures forall k :: 0 <= k < n ==> IsDigit(s[k])
    ensures n == |s| || !IsDigit(s[n])
  {
    if s != [] && IsDigit(s[0]) then 1 + DigitRun(s[1..]) else 0
  }

  /** exp = ("e" / "E") ["-" / "+"] 1*DIGIT, or nothing */
  predicate ExpPart(s: string) {
    s == [] || ((s[0] == 'e' || s[0] == 'E') &&
      (AllDigits(s[1..]) || (|s| > 1 && (s[1] == '-' || s[1] == '+') && AllDigits(s[2..]))))
  }

  /** [ frac ] [ exp ], where frac = "." 1*DIGIT */
  predicate FracExp(s: string) {
    if s != [] && s[0] == '.' then
      var m := DigitRun(s[1..]);
      m > 0 && ExpPart(s[1 + m..])
    else ExpPart(s)
  }

  /** number = [ "-" ] int [ frac ] [ exp ], int = "0" / digit1-9 *DIGIT
   *  (RFC 8259, section 6). Digits are read greedily, which the grammar
   *  allows since a digit can never follow an int or a frac. */
  predicate IsNumber(s: string) {
    var u := if s != [] && s[0] == '-' then s[1..] else s;
    var i := DigitRun(u);
    i > 0 && (u[0] == '0' ==> i == 1) && FracExp(u[i..])
  }

  function ParseNumber(s: string): (r: Option<(Value, string)>)
    ensures r.Some? ==> |r.value.1| < |s|
  {
    var n := NumberLen(s);
    if n > 0 && IsNumber(s[..n]) then Some((Number(s[..n]), s[n..])) else None
  }

  /** The literal name null. */
  predicate NullAt(t: string) {
    |t| >= 4 && t[0] == 'n' && t[1] == 'u' && t[2] == 'l' && t[3] == 'l'
  }

  function ParseValue(s: string): (r: Option<(Value, string)>)
    ensures r.Some? ==> |r.value.1| < |s|
    decreases |s|, 3
  {
    var t := SkipWs(s);
    if t == [] then None
    else if t[0] == '{' then ParseObject(t)
    else if t[0] == '[' then ParseArray(t)
    else if t[0] == '"' then ParseString(t)
    else if NullAt(t) then Some((Null, t[4..]))
    else ParseNumber(t)
  }

  /** An object; t starts with its "{". */
  function ParseObject(t: string): (r: Option<(Value, string)>)
    requires t != [] && t[0] == '{'
    ensures r.Some? ==> |r.value.1| < |t|
    decreases |t|, 2
  {
    var u := SkipWs(t[1..]);
    if u != [] && u[0] == '}' then Some((Object([]), u[1..]))
    else
      match ParseMembers(t[1..])
      case None => None
      case Some((ms, rest)) => Some((Object(ms), rest))
  }

  /** An array; t starts with its "[". */
  function ParseArray(t: string): (r: Option<(Value, string)>)
    requires t != [] && t[0] == '['
    ensures r.Some? ==> |r.value.1| < |t|
    decreases |t|, 2
  {
    var u := SkipWs(t[1..]);
    if u != [] && u[0] == ']' then Some((Array([]), u[1..]))
    else
      match ParseItems(t[1..])
      case None => None
      case Some((vs, rest)) => Some((Array(vs), rest))
  }

  /** A string; t starts with its opening quote. */
  function ParseString(t: string): (r: Option<(Value, string)>)
    requires t != [] && t[0] == '"'
    ensures r.Some? ==> |r.value.1| < |t|
  {
    match StringBody(t[1..])
    case None => None
    case Some((str, rest)) => Some((Str(str), rest))
  }

  /** The members of an object after its "{", through its "}". */
  function ParseMembers(s: string): (r: Option<(seq<Member>, string)>)
    ensures r.Some? ==> |r.value.1| < |s|
    decreases |s|, 0
  {
    var t := SkipWs(s);
    if t == [] || t[0] != '"' then None
    else
      match StringBody(t[1..])
      case None => None
      case Some((name, a)) =>
        var b := SkipWs(a);
        if b == [] || b[0] != ':' then None
        else
          match ParseValue(b[1..])
          case None => None
          case Some((v, c)) => MoreMembers(Member(name, v), c)
  }

  /** What follows member m of an object: "}" or "," and more members. */
  function MoreMembers(m: Member, c: string): (r: Option<(seq<Member>, string)>)
    ensures r.Some? ==> |r.value.1| < |c|
    decreases |c|, 1
  {
    var d := SkipWs(c);
    if d == [] then None
    else if d[0] == '}' then Some(([m], d[1..]))
    else if d[0] == ',' then
      match ParseMembers(d[1..])
      case None => None
      case Some((ms, e)) => Some(([m] + ms, e))
    else None
  }

  /** The items of an array after its "[", through its "]". */
  function ParseItems(s: string): (r: Option<(seq<Value>, string)>)
    ensures r.Some? ==> |r.value.1| < |s|
    decreases |s|, 4
  {
    match ParseValue(s)
    case None => None
    case Some((v, c)) => MoreItems(v, c)
  }

  /** What follows item v of an array: "]" or "," and more items. */
  function MoreItems(v: Value, c: string): (r: Option<(seq<Value>, string)>)
    ensures r.Some? ==> |r.value.1| < |c|
    decreases |c|, 5
  {
    var d := SkipWs(c);
    if d == [] then None
    else if d[0] == ']' then Some(([v], d[1..]))
    else if d[0] == ',' then
      match ParseItems(d[1..])
      case None => None
      case Some((vs, e)) => Some(([v] + vs, e))
    else None
  }

  /** A complete JSON text: one value with nothing but whitespace around it. */
  function Decode(s: string): Option<Value> {
    match ParseValue(s)
    case Some((v, rest)) => if SkipWs(rest) == [] then Some(v) else None
    case None => None
  }

  // ---------------------------------------------------------------------
  // Round trip

  lemma UnescapeChar(c: char, more: string)
    requires !Plain(c)
    ensures EscapeChar(c)[0] == '\\'
    ensures Unescape(EscapeChar(c)[1..] + more) == Some((c, more))
  {
    var e := EscapeChar(c);
    if c == '"' || c == '\\' || c == '\n' || c == '\r' || c == '\t' || c == '\U{08}' || c == '\U{0C}' {
      assert e[1..] + more == [e[1]] + more;
    } else if (c as int) < 0x10000 {
      UnescapeBmp(c, more);
    } else {
      UnescapePair(c, more);
    }
  }

  lemma UnescapeBmp(c: char, more: string)
    requires !Plain(c) && c != '"' && c != '\\' && c != '\n' && c != '\r' && c != '\t'
    requires c != '\U{08}' && c != '\U{0C}' && (c as int) < 0x10000
    ensures EscapeChar(c)[0] == '\\'
    ensures Unescape(EscapeChar(c)[1..] + more) == Some((c, more))
  {
    var n := c as int;
    assert EscapeChar(c) == "\\u" + Hex4(n);
    assert EscapeChar(c)[1..] + more == "u" + (Hex4(n) + more);
    UnescapeU(Hex4(n) + more);
    BmpEscape(c, more);
  }

  lemma UnescapeU(s: string)
    ensures Unescape("u" + s) == UnicodeEscape(s)
  {
    assert ("u" + s)[1..] == s;
  }

  /** Four hex digits of a character outside the surrogate range. */
  lemma BmpEscape(c: char, more: string)
    requires (c as int) < 0x10000
    ensures UnicodeEscape(Hex4(c as int) + more) == Some((c, more))
  {
    var n := c as int;
    Hex4RoundTrip(n);
    var s := Hex4(n) + more;
    assert s[..4] == Hex4(n);
    assert s[4..] == more;
  }

  lemma SurrogatePair(cp: int)
    requires 0x10000 <= cp < 0x110000
    ensures 0x10000 + (HighSurrogate(cp) - 0xD800) * 0x400 + (LowSurrogate(cp) - 0xDC00) == cp
  {
  }

  lemma UnescapePair(c: char, more: string)
    requires (c as int) >= 0x10000
    ensures EscapeChar(c)[0] == '\\'
    ensures Unescape(EscapeChar(c)[1..] + more) == Some((c, more))
  {
    var hi, lo := HighSurrogate(c as int), LowSurrogate(c as int);
    var e := EscapeChar(c);
    EscapeAstral(c);
    var s := Hex4(hi) + "\\u" + Hex4(lo) + more;
    assert e[1..] + more == "u" + s;
    UnescapeU(s);
    PairEscape(c, more);
  }

  lemma EscapeAstral(c: char)
    requires (c as int) >= 0x10000
    ensures EscapeChar(c) == "\\u" + Hex4(HighSurrogate(c as int)) + "\\u" + Hex4(LowSurrogate(c as int))
  {
    assert c != '"' && c != '\\' && c != '\n' && c != '\r' && c != '\t';
    assert c != '\U{08}' && c != '\U{0C}' && !Plain(c);
  }

  /** An escaped surrogate pair decodes to the character it encodes. */
  lemma PairEscape(c: char, more: string)
    requires (c as int) >= 0x10000
    ensures UnicodeEscape(Hex4(HighSurrogate(c as int)) + "\\u" + Hex4(LowSurrogate(c as int)) + more) == Some((c, more))
  {
    var hi, lo := HighSurrogate(c as int), LowSurrogate(c as int);
    Hex4RoundTrip(hi);
    Hex4RoundTrip(lo);
    var s := Hex4(hi) + "\\u" + Hex4(lo) + more;
    PairPieces(Hex4(hi), Hex4(lo), more);
    SurrogatePair(c as int);
    PairDecode(s, hi, lo, c, more);
  }

  lemma PairDecode(s: string, hi: nat, lo: nat, c: char, more: string)
    requires |s| >= 10 && s[4] == '\\' && s[5] == 'u' && s[10..] == more
    requires Hex4Value(s[..4]) == Some(hi) && Hex4Value(s[6..10]) == Some(lo)
    requires 0xD800 <= hi < 0xDC00 && 0xDC00 <= lo < 0xE000
    requires 0x10000 + (hi - 0xD800) * 0x400 + (lo - 0xDC00) == c as int
    ensures UnicodeEscape(s) == Some((c, more))
  {
    PairValue(hi, lo, c);
  }

  lemma PairPieces(a: string, b: string, more: string)
    requires |a| == 4 && |b| == 4
    ensures var s := a + "\\u" + b + more;
      |s| >= 10 && s[..4] == a && s[4] == '\\' && s[5] == 'u' && s[6..10] == b && s[10..] == more
  {
  }

  lemma PairValue(hi: nat, lo: nat, c: char)
    requires 0xD800 <= hi < 0xDC00 && 0xDC00 <= lo < 0xE000
    requires 0x10000 + (hi - 0xD800) * 0x400 + (lo - 0xDC00) == c as int
    ensures (0x10000 + (hi - 0xD800) * 0x400 + (lo - 0xDC00)) as char == c
  {
  }

  lemma {:induction false} StringBodyEscaped(s: string, rest: string)
    ensures StringBody(Escaped(s) + "\"" + rest) == Some((s, rest))
    decreases |s|
  {
    if s == [] {
      assert Escaped(s) + "\"" + rest == "\"" + rest;
    } else {
      var c := s[0];
      var tail := Escaped(s[1..]) + "\"" + rest;
      StringBodyEscaped(s[1..], rest);
      assert Escaped(s) + "\"" + rest == EscapeChar(c) + tail;
      BodyStep(c, tail, s[1..], rest);
      assert [c] + s[1..] == s;
    }
  }

  /** One escaped character in front of a string body. */
  lemma BodyStep(c: char, tail: string, t: string, after: string)
    requires StringBody(tail) == Some((t, after))
    ensures StringBody(EscapeChar(c) + tail) == Some(([c] + t, after))
  {
    var e := EscapeChar(c) + tail;
    if Plain(c) {
      assert EscapeChar(c) == [c];
      assert e[1..] == tail;
    } else {
      UnescapeChar(c, tail);
      assert e[1..] == EscapeChar(c)[1..] + tail;
    }
  }

  /** Decoding a json.dumps string gives the string back. */
  lemma QuoteRoundTrip(s: string, rest: string)
    ensures ParseValue(Quote(s) + rest) == Some((Str(s), rest))
  {
    var q := Quote(s) + rest;
    var body := Escaped(s) + "\"" + rest;
    StringBodyEscaped(s, rest);
    assert q == "\"" + body;
    ValueAtQuote(body, s, rest);
  }

  /** A quote followed by a string body is a string value. */
  lemma ValueAtQuote(body: string, s: string, rest: string)
    requires StringBody(body) == Some((s, rest))
    ensures ParseValue("\"" + body) == Some((Str(s), rest))
  {
    var t := "\"" + body;
    assert SkipWs(t) == t;
    assert t[1..] == body;
  }

  /** json.dumps is injective on strings. */
  lemma QuoteInjective(a: string, b: string)
    requires Quote(a) == Quote(b)
    ensures a == b
  {
    QuoteRoundTrip(a, "");
    QuoteRoundTrip(b, "");
    assert Quote(a) + "" == Quote(b) + "";
  }

  lemma {:induction false} EscapedPlain(s: string)
    requires forall k :: 0 <= k < |s| ==> Plain(s[k])
    ensures Escaped(s) == s
    decreases |s|
  {
    if s != [] {
      EscapedPlain(s[1..]);
      assert [s[0]] + s[1..] == s;
    }
  }
}
