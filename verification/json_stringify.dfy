/**
 * The two pieces of JSON.stringify (ECMA-262) that a failure reason is built
 * from: the decimal form of a non-negative integer Number, and the
 * QuoteJSONString operation for strings. Each comes with a reader that undoes
 * it, so that what is written can be shown to be recoverable.
 */
module JsonStringify {
  import opened Wrappers

  predicate IsDigit(c: char) {
    '0' <= c <= '9'
  }

  predicate AllDigits(s: string) {
    forall i :: 0 <= i < |s| ==> IsDigit(s[i])
  }

  function DigitValue(c: char): (d: nat)
    requires IsDigit(c)
    ensures d < 10
  {
    c as int - '0' as int
  }

  function DigitChar(d: nat): (c: char)
    requires d < 10
    ensures IsDigit(c) && DigitValue(c) == d
  {
    ('0' as int + d) as char
  }

  /** Number::toString of a non-negative integer: decimal digits, no sign, no leading zero. */
  function NatToDecimal(n: nat): (s: string)
    ensures 0 < |s| && AllDigits(s)
    ensures s[0] == '0' <==> n == 0
    decreases n
  {
    if n < 10 then [DigitChar(n)] else NatToDecimal(n / 10) + [DigitChar(n % 10)]
  }

  /** The number a string of decimal digits denotes. */
  function DecimalValue(s: string): (n: nat)
    requires AllDigits(s)
    decreases |s|
  {
    if |s| == 0 then 0 else DecimalValue(s[..|s| - 1]) * 10 + DigitValue(s[|s| - 1])
  }

  /** The digit strings NatToDecimal produces: non-empty, no leading zero. */
  predicate IsCanonicalDecimal(s: string) {
    0 < |s| && AllDigits(s) && (s[0] == '0' ==> |s| == 1)
  }

  lemma {:induction false} DecimalRoundTrip(n: nat)
    ensures DecimalValue(NatToDecimal(n)) == n
    decreases n
  {
    if n >= 10 {
      var s := NatToDecimal(n);
      assert s[..|s| - 1] == NatToDecimal(n / 10);
      DecimalRoundTrip(n / 10);
    }
  }

  lemma {:induction false} LeadingNonZeroIsPositive(s: string)
    requires 0 < |s| && AllDigits(s) && s[0] != '0'
    ensures DecimalValue(s) >= 1
    decreases |s|
  {
    if |s| > 1 {
      LeadingNonZeroIsPositive(s[..|s| - 1]);
    }
  }

  /** The other direction: every canonical digit string is the rendering of its value. */
  lemma {:induction false} CanonicalDecimalRoundTrip(s: string)
    requires IsCanonicalDecimal(s)
    ensures NatToDecimal(DecimalValue(s)) == s
    decreases |s|
  {
    var last := s[|s| - 1];
    if |s| == 1 {
      assert DecimalValue(s) == DigitValue(last);
      assert DigitChar(DigitValue(last)) as int == last as int;
    } else {
      var p := s[..|s| - 1];
      LeadingNonZeroIsPositive(p);
      CanonicalDecimalRoundTrip(p);
      var v := DecimalValue(s);
      assert v / 10 == DecimalValue(p) && v % 10 == DigitValue(last);
      assert DigitChar(DigitValue(last)) as int == last as int;
      assert p + [last] == s;
    }
  }

  /** Length of the longest all-digit prefix of s. */
  function DigitRun(s: string): (k: nat)
    ensures k <= |s| && AllDigits(s[..k])
    ensures k < |s| ==> !IsDigit(s[k])
    decreases |s|
  {
    if |s| > 0 && IsDigit(s[0]) then 1 + DigitRun(s[1..]) else 0
  }

  lemma {:induction false} DigitRunStopsAt(d: string, x: string)
    requires AllDigits(d) && 0 < |x| && !IsDigit(x[0])
    ensures DigitRun(d + x) == |d|
    decreases |d|
  {
    if |d| > 0 {
      assert (d + x)[1..] == d[1..] + x;
      DigitRunStopsAt(d[1..], x);
    } else {
      assert d + x == x;
    }
  }

  /** Lower-case hexadecimal digit, as UnicodeEscape writes it. */
  function HexDigit(d: nat): (c: char)
    requires d < 16
  {
    if d < 10 then DigitChar(d) else ('a' as int + (d - 10)) as char
  }

  /** The value of a hexadecimal digit of either case, as JSON.parse reads it. */
  function HexValue(c: char): (r: Option<nat>)
    ensures r.Some? ==> r.value < 16
  {
    if '0' <= c <= '9' then Some(c as int - '0' as int)
    else if 'a' <= c <= 'f' then Some(c as int - 'a' as int + 10)
    else if 'A' <= c <= 'F' then Some(c as int - 'A' as int + 10)
    else None
  }

  lemma HexDigitValue(d: nat)
    requires d < 16
    ensures HexValue(HexDigit(d)) == Some(d)
  {
  }

  /** What QuoteJSONString writes for one code point. */
  function EscapeChar(c: char): (e: string)
  {
    if c == '"' then "\\\""
    else if c == '\\' then "\\\\"
    else if c as int == 0x08 then "\\b"
    else if c as int == 0x0C then "\\f"
    else if c == '\n' then "\\n"
    else if c == '\r' then "\\r"
    else if c == '\t' then "\\t"
    else if c as int < 0x20 then "\\u00" + [HexDigit(c as int / 16), HexDigit(c as int % 16)]
    else [c]
  }

  function EscapeBody(s: string): (e: string)
    decreases |s|
  {
    if |s| == 0 then "" else EscapeChar(s[0]) + EscapeBody(s[1..])
  }

  /** QuoteJSONString: the JSON string literal for s. */
  function Quote(s: string): (q: string)
  {
    "\"" + EscapeBody(s) + "\""
  }

  /** A code point QuoteJSONString copies unchanged. */
  predicate IsPlain(c: char) {
    c as int >= 0x20 && c != '"' && c != '\\'
  }

  lemma {:induction false} PlainTextIsUnescaped(s: string)
    requires forall i :: 0 <= i < |s| ==> IsPlain(s[i])
    ensures EscapeBody(s) == s
    decreases |s|
  {
    if |s| > 0 {
      PlainTextIsUnescaped(s[1..]);
      assert [s[0]] + s[1..] == s;
    }
  }

  /** Text without quotes, backslashes or control characters is quoted as it is. */
  lemma QuotePlain(t: string)
    requires forall i :: 0 <= i < |t| ==> IsPlain(t[i])
    ensures Quote(t) == "\"" + t + "\""
  {
    PlainTextIsUnescaped(t);
  }

  /** Reads the escape sequence after a backslash: the code point it
      denotes and how many characters it spans. */
  function ReadEscape(s: string): (r: Option<(char, nat)>)
    ensures r.Some? ==> 1 <= r.value.1 <= |s|
  {
    if |s| == 0 then None
    else if s[0] == '"' || s[0] == '\\' || s[0] == '/' then Some((s[0], 1))
    else if s[0] == 'b' then Some((0x08 as char, 1))
    else if s[0] == 'f' then Some((0x0C as char, 1))
    else if s[0] == 'n' then Some(('\n', 1))
    else if s[0] == 'r' then Some(('\r', 1))
    else if s[0] == 't' then Some(('\t', 1))
    else if s[0] == 'u' && |s| >= 5 then
      match (HexValue(s[1]), HexValue(s[2]), HexValue(s[3]), HexValue(s[4]))
      case (Some(a), Some(b), Some(c), Some(d)) =>
        var v := ((a * 16 + b) * 16 + c) * 16 + d;
        if 0xD800 <= v <= 0xDFFF then None else Some((v as char, 5))
      case _ => None
    else None
  }

  function Prepend(c: char, r: Option<(string, string)>): (p: Option<(string, string)>)
  {
    match r
    case None => None
    case Some((t, rest)) => Some(([c] + t, rest))
  }

  /** Reads the inside of a JSON string literal up to its closing quote:
      the decoded text and whatever follows the quote. */
  function ReadString(s: string): (r: Option<(string, string)>)
    decreases |s|
  {
    if |s| == 0 then None
    else if s[0] == '"' then Some(("", s[1..]))
    else if s[0] as int < 0x20 then None
    else if s[0] == '\\' then
      match ReadEscape(s[1..])
      case None => None
      case Some((c, n)) => Prepend(c, ReadString(s[1 + n..]))
    else Prepend(s[0], ReadString(s[1..]))
  }

  /** Reads a JSON string literal at the start of s. */
  function ReadQuoted(s: string): (r: Option<(string, string)>)
  {
    if 0 < |s| && s[0] == '"' then ReadString(s[1..]) else None
  }

  /** A two-character escape such as `\"` or `\n` reads back to its code point. */
  lemma ShortEscapeRead(c: char, tail: string)
    requires c == '"' || c == '\\' || c as int == 0x08 || c as int == 0x0C || c == '\n' || c == '\r' || c == '\t'
    ensures ReadString(EscapeChar(c) + tail) == Prepend(c, ReadString(tail))
  {
    var e := EscapeChar(c);
    assert |e| == 2 && e[0] == '\\';
    var s := e + tail;
    assert s[0] == '\\';
    assert s[1..] == [e[1]] + tail;
    assert ReadEscape(s[1..]) == Some((c, 1));
    assert s[2..] == tail;
  }

  /** A `\u00XX` escape of a control character reads back to it. */
  lemma UnicodeEscapeRead(c: char, tail: string)
    requires c as int < 0x20
    requires !(c == '"' || c == '\\' || c as int == 0x08 || c as int == 0x0C || c == '\n' || c == '\r' || c == '\t')
    ensures ReadString(EscapeChar(c) + tail) == Prepend(c, ReadString(tail))
  {
    var hi, lo := c as int / 16, c as int % 16;
    HexDigitValue(hi);
    HexDigitValue(lo);
    var e := EscapeChar(c);
    assert e == "\\u00" + [HexDigit(hi), HexDigit(lo)];
    var s := e + tail;
    var u := s[1..];
    assert u == ['u', '0', '0', HexDigit(hi), HexDigit(lo)] + tail;
    assert u[0] == 'u' && |u| >= 5;
    assert HexValue(u[1]) == Some(0) && HexValue(u[2]) == Some(0);
    assert HexValue(u[3]) == Some(hi) && HexValue(u[4]) == Some(lo);
    assert ((0 * 16 + 0) * 16 + hi) * 16 + lo == c as int;
    assert ReadEscape(u) == Some((c, 5));
    assert s[6..] == tail;
  }

  lemma EscapeCharRead(c: char, tail: string)
    ensures ReadString(EscapeChar(c) + tail) == Prepend(c, ReadString(tail))
  {
    if c == '"' || c == '\\' || c as int == 0x08 || c as int == 0x0C || c == '\n' || c == '\r' || c == '\t' {
      ShortEscapeRead(c, tail);
    } else if c as int < 0x20 {
      UnicodeEscapeRead(c, tail);
    } else {
      assert EscapeChar(c) == [c];
      assert (EscapeChar(c) + tail)[1..] == tail;
    }
  }

  lemma {:induction false} EscapeBodyRead(t: string, tail: string)
    ensures ReadString(EscapeBody(t) + "\"" + tail) == Some((t, tail))
    decreases |t|
  {
    if |t| == 0 {
      assert EscapeBody(t) + "\"" + tail == "\"" + tail;
    } else {
      var rest := EscapeBody(t[1..]) + "\"" + tail;
      assert EscapeBody(t) + "\"" + tail == EscapeChar(t[0]) + rest;
      EscapeCharRead(t[0], rest);
      EscapeBodyRead(t[1..], tail);
      assert [t[0]] + t[1..] == t;
    }
  }

  /** Reading back a quoted string yields the original text and leaves what follows. */
  lemma QuoteRoundTrip(t: string, tail: string)
    ensures ReadQuoted(Quote(t) + tail) == Some((t, tail))
  {
    assert (Quote(t) + tail)[1..] == EscapeBody(t) + "\"" + tail;
    EscapeBodyRead(t, tail);
  }
}
