/** URL percent-encoding of a byte string as Python 2's `urllib.quote(name)`
    does it (section 2.1 of RFC 3986): letters, digits, `_`, `.`, `-` and the
    default safe character `/` are kept, every other byte becomes `%XY` with
    two upper-case hexadecimal digits. Both cache-key builders use it. */
module UrlQuote {
  import opened Base

  /** Python 2.7's `always_safe` set. */
  predicate AlwaysSafe(c: char) {
    ('A' <= c <= 'Z') || ('a' <= c <= 'z') || ('0' <= c <= '9') || c == '_' || c == '.' || c == '-'
  }

  /** Characters `quote(s)` leaves alone with its default `safe='/'`. Python 2
      escapes `~` although RFC 3986 lists it as unreserved, so it is not here. */
  predicate Unreserved(c: char) {
    AlwaysSafe(c) || c == '/'
  }

  predicate IsHexDigit(c: char) {
    ('0' <= c <= '9') || ('A' <= c <= 'F') || ('a' <= c <= 'f')
  }

  /** The digits `quote` writes: upper case only. */
  predicate UpperHexDigit(c: char) {
    ('0' <= c <= '9') || ('A' <= c <= 'F')
  }

  function HexDigit(v: nat): (c: char)
    requires v < 16
    ensures IsHexDigit(c) && UpperHexDigit(c)
  {
    if v < 10 then ('0' as int + v) as char else ('A' as int + v - 10) as char
  }

  function HexValue(c: char): (v: nat)
    requires IsHexDigit(c)
    ensures v < 16
  {
    if '0' <= c <= '9' then c as int - '0' as int
    else if 'A' <= c <= 'F' then c as int - 'A' as int + 10
    else c as int - 'a' as int + 10
  }

  /** What may appear in quoted output. */
  predicate QuotedChar(c: char) {
    Unreserved(c) || c == '%' || IsHexDigit(c)
  }

  /** The `%XY` escape of one byte. */
  function Escape(c: char): (e: string)
    requires c as int < 256
    ensures |e| == 3 && e[0] == '%' && IsHexDigit(e[1]) && IsHexDigit(e[2])
    ensures UpperHexDigit(e[1]) && UpperHexDigit(e[2])
    ensures 16 * HexValue(e[1]) + HexValue(e[2]) == c as int
  {
    ['%', HexDigit(c as int / 16), HexDigit(c as int % 16)]
  }

  /** `urllib.quote(s)`. */
  function Quote(s: Name): (q: string)
    ensures |q| >= |s|
    ensures forall i | 0 <= i < |q| :: QuotedChar(q[i])
    ensures s == [] <==> q == []
  {
    if s == [] then []
    else
      var rest: Name := s[1..];
      (if Unreserved(s[0]) then [s[0]] else Escape(s[0])) + Quote(rest)
  }

  /** Percent-decoding (`urllib.unquote`): a `%` followed by two hexadecimal
      digits stands for one byte; anything else stands for itself. */
  function Unquote(q: string): (s: string)
    decreases |q|
  {
    if q == [] then []
    else if q[0] == '%' && |q| >= 3 && IsHexDigit(q[1]) && IsHexDigit(q[2]) then
      [(16 * HexValue(q[1]) + HexValue(q[2])) as char] + Unquote(q[3..])
    else
      [q[0]] + Unquote(q[1..])
  }

  /** Decoding undoes quoting: no information about the name is lost. */
  lemma {:induction false} UnquoteQuote(s: Name)
    ensures Unquote(Quote(s)) == s
  {
    if s != [] {
      var rest: Name := s[1..];
      UnquoteQuote(rest);
      var tail := Quote(rest);
      if Unreserved(s[0]) {
        var q := [s[0]] + tail;
        assert q[1..] == tail;
        assert Unquote(q) == [s[0]] + Unquote(tail);
      } else {
        var e := Escape(s[0]);
        var q := e + tail;
        assert q[0] == '%' && q[1] == e[1] && q[2] == e[2];
        assert q[3..] == tail;
        assert Unquote(q) == [s[0]] + Unquote(tail);
      }
      assert [s[0]] + rest == s;
    }
  }

  /** Distinct names quote to distinct strings. */
  lemma QuoteInjective(a: Name, b: Name)
    requires Quote(a) == Quote(b)
    ensures a == b
  {
    UnquoteQuote(a);
    UnquoteQuote(b);
  }

  /** A name made only of unreserved characters is its own quotation. */
  lemma {:induction false} QuoteUnreservedIdentity(s: Name)
    requires forall i | 0 <= i < |s| :: Unreserved(s[i])
    ensures Quote(s) == s
  {
    if s != [] {
      var rest: Name := s[1..];
      QuoteUnreservedIdentity(rest);
      assert [s[0]] + rest == s;
    }
  }

  /** `prefix + quote(name)` determines the name, for any fixed prefix. */
  lemma PrefixedQuoteInjective(prefix: string, a: Name, b: Name)
    requires prefix + Quote(a) == prefix + Quote(b)
    ensures a == b
  {
    assert (prefix + Quote(a))[|prefix|..] == Quote(a);
    assert (prefix + Quote(b))[|prefix|..] == Quote(b);
    QuoteInjective(a, b);
  }
}
