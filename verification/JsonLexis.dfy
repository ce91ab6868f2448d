/** The lexical level of JSON: string literals (section 7 of RFC 8259) as JavaScript prints and
    reads them, and number literals (section 6). */
module JsonLexis {
  import opened Results
  import opened Text

  const QUOTE: Code := 34
  const BACKSLASH: Code := 92
  const MINUS: Code := 45
  const COMMA: Code := 44
  const COLON: Code := 58
  const OPEN_ARRAY: Code := 91
  const CLOSE_ARRAY: Code := 93
  const OPEN_OBJECT: Code := 123
  const CLOSE_OBJECT: Code := 125

  // ---- Strings ------------------------------------------------------------------------------

  predicate IsHigh(c: Code) {
    0xD800 <= c < 0xDC00
  }

  predicate IsLow(c: Code) {
    0xDC00 <= c < 0xE000
  }

  function HexDigit(n: int): Code
    requires 0 <= n < 16
  {
    if n < 10 then '0' as int + n else 'a' as int + n - 10
  }

  function HexValue(c: Code): (r: Option<int>)
    ensures r.Some? ==> 0 <= r.value < 16
  {
    if IsDigitCode(c) then Some(c - '0' as int)
    else if 'a' as int <= c <= 'f' as int then Some(c - 'a' as int + 10)
    else if 'A' as int <= c <= 'F' as int then Some(c - 'A' as int + 10)
    else None
  }

  /** The escape of one code unit that may not stand for itself. */
  function EscapeUnit(c: Code): Text
    requires c < 0x1_0000
  {
    if c == QUOTE || c == BACKSLASH then [BACKSLASH, c]
    else if c == 8 then [BACKSLASH, 'b' as int]
    else if c == 12 then [BACKSLASH, 'f' as int]
    else if c == 10 then [BACKSLASH, 'n' as int]
    else if c == 13 then [BACKSLASH, 'r' as int]
    else if c == 9 then [BACKSLASH, 't' as int]
    else [BACKSLASH, 'u' as int, HexDigit(c / 0x1000), HexDigit(c / 0x100 % 16), HexDigit(c / 16 % 16),
          HexDigit(c % 16)]
  }

  /** The inside of the literal of `s`: a surrogate pair stands for itself, a lone one is escaped. */
  function Escape(s: Text): Text {
    if s == [] then []
    else if |s| > 1 && IsHigh(s[0]) && IsLow(s[1]) then [s[0], s[1]] + Escape(s[2..])
    else if s[0] < 32 || s[0] == QUOTE || s[0] == BACKSLASH || IsHigh(s[0]) || IsLow(s[0]) then
      EscapeUnit(s[0]) + Escape(s[1..])
    else [s[0]] + Escape(s[1..])
  }

  function Quote(s: Text): Text {
    [QUOTE] + Escape(s) + [QUOTE]
  }

  function Unescape(c: Code): Option<Code> {
    if c == QUOTE || c == BACKSLASH || c == '/' as int then Some(c)
    else if c == 'b' as int then Some(8)
    else if c == 'f' as int then Some(12)
    else if c == 'n' as int then Some(10)
    else if c == 'r' as int then Some(13)
    else if c == 't' as int then Some(9)
    else None
  }

  function FourHex(t: Text): Option<Code>
    requires |t| >= 4
  {
    var a, b, c, d := HexValue(t[0]), HexValue(t[1]), HexValue(t[2]), HexValue(t[3]);
    if a.Some? && b.Some? && c.Some? && d.Some? then
      Some(((a.value * 16 + b.value) * 16 + c.value) * 16 + d.value)
    else
      None
  }

  /** Read to the closing quote: the string, and what follows it. */
  function ParseString(t: Text): (r: Option<(Text, Text)>)
    ensures r.Some? ==> |r.value.1| < |t|
  {
    if t == [] || (t[0] < 32) then None
    else if t[0] == QUOTE then Some(([], t[1..]))
    else if t[0] != BACKSLASH then Prefixed(t[0], ParseString(t[1..]))
    else if |t| >= 6 && t[1] == 'u' as int then
      var unit := FourHex(t[2..6]);
      if unit.None? then None else Prefixed(unit.value, ParseString(t[6..]))
    else if |t| >= 2 && Unescape(t[1]).Some? then Prefixed(Unescape(t[1]).value, ParseString(t[2..]))
    else None
  }

  function Prefixed(c: Code, r: Option<(Text, Text)>): Option<(Text, Text)> {
    if r.None? then None else Some(([c] + r.value.0, r.value.1))
  }

  lemma FourHexRoundTrip(c: Code)
    requires c < 0x1_0000
    ensures FourHex([HexDigit(c / 0x1000), HexDigit(c / 0x100 % 16), HexDigit(c / 16 % 16), HexDigit(c % 16)])
            == Some(c)
  {
    hide HexDigit, HexValue;
    HexDigitsOf(c);
    HexRoundTrip(c / 0x1000);
    HexRoundTrip(c / 0x100 % 16);
    HexRoundTrip(c / 16 % 16);
    HexRoundTrip(c % 16);
  }

  lemma HexDigitsOf(c: Code)
    requires c < 0x1_0000
    ensures 0 <= c / 0x1000 < 16
    ensures c == ((c / 0x1000 * 16 + c / 0x100 % 16) * 16 + c / 16 % 16) * 16 + c % 16
  {
  }

  lemma HexRoundTrip(n: int)
    requires 0 <= n < 16
    ensures HexValue(HexDigit(n)) == Some(n)
  {
  }

  lemma EscapeUnitRoundTrip(c: Code, rest: Text)
    requires c < 0x1_0000
    ensures ParseString(EscapeUnit(c) + rest) == Prefixed(c, ParseString(rest))
  {
    hide FourHex, HexDigit;
    var e := EscapeUnit(c);
    var t := e + rest;
    assert t[|e|..] == rest;
    assert t[0] == e[0] && t[1] == e[1];
    if |e| == 6 {
      assert t[2..6] == e[2..6] == [HexDigit(c / 0x1000), HexDigit(c / 0x100 % 16), HexDigit(c / 16 % 16),
                                    HexDigit(c % 16)];
      FourHexRoundTrip(c);
    }
  }

  /** A unit that `Escape` writes as it is. */
  predicate IsPlain(c: Code) {
    32 <= c && c != QUOTE && c != BACKSLASH && !IsHigh(c) && !IsLow(c)
  }

  /** What `Escape` writes for one unit outside a surrogate pair. */
  function PrintUnit(c: Code): Text {
    if IsPlain(c) then [c] else EscapeUnit(c)
  }

  /** How a printed string starts: with a surrogate pair, a plain unit or an escaped one. */
  lemma EscapeStep(s: Text)
    requires s != []
    ensures |s| > 1 && IsHigh(s[0]) && IsLow(s[1]) ==> Escape(s) == [s[0], s[1]] + Escape(s[2..])
    ensures !(|s| > 1 && IsHigh(s[0]) && IsLow(s[1])) ==>
              Escape(s) == PrintUnit(s[0]) + Escape(s[1..])
  {
    hide EscapeUnit;
  }

  /** Reading on after a literal surrogate pair. */
  lemma PairRead(a: Code, b: Code, tail: Text, s: Text, rest: Text)
    requires IsHigh(a) && IsLow(b) && ParseString(tail) == Some((s, rest))
    ensures ParseString([a, b] + tail) == Some(([a, b] + s, rest))
  {
    assert [a, b] + tail == [a] + ([b] + tail) && [a, b] + s == [a] + ([b] + s);
    SurrogateIsLiteral(a);
    SurrogateIsLiteral(b);
    LiteralUnit(a, [b] + tail);
    LiteralUnit(b, tail);
  }

  /** Reading on after one printed unit. */
  lemma UnitRead(c: Code, tail: Text, s: Text, rest: Text)
    requires ParseString(tail) == Some((s, rest))
    ensures ParseString(PrintUnit(c) + tail) == Some(([c] + s, rest))
  {
    hide ParseString, EscapeUnit;
    SurrogateIsLiteral(c);
    if IsPlain(c) {
      LiteralUnit(c, tail);
    } else {
      EscapeUnitRoundTrip(c, tail);
    }
  }

  lemma Requote(a: Text, b: Text, rest: Text)
    ensures a + b + [QUOTE] + rest == a + (b + [QUOTE] + rest)
  {
  }

  /** Reading a printed string gives the string back, whatever follows it. */
  lemma {:induction false} StringRoundTrip(s: Text, rest: Text)
    ensures ParseString(Escape(s) + [QUOTE] + rest) == Some((s, rest))
  {
    hide PrintUnit, Escape, IsHigh, IsLow;
    if s == [] {
      EscapeNothing();
      assert (Escape(s) + [QUOTE] + rest)[1..] == rest;
      return;
    }
    hide ParseString;
    if |s| > 1 && IsHigh(s[0]) && IsLow(s[1]) {
      EscapeStep(s);
      StringRoundTrip(s[2..], rest);
      Requote([s[0], s[1]], Escape(s[2..]), rest);
      PairRead(s[0], s[1], Escape(s[2..]) + [QUOTE] + rest, s[2..], rest);
      assert s == [s[0], s[1]] + s[2..];
    } else {
      EscapeStep(s);
      StringRoundTrip(s[1..], rest);
      Requote(PrintUnit(s[0]), Escape(s[1..]), rest);
      UnitRead(s[0], Escape(s[1..]) + [QUOTE] + rest, s[1..], rest);
      assert s == [s[0]] + s[1..];
    }
  }

  lemma EscapeNothing()
    ensures Escape([]) == []
  {
  }

  lemma SurrogateIsLiteral(c: Code)
    ensures IsHigh(c) || IsLow(c) ==> 32 <= c < 0x1_0000 && c != QUOTE && c != BACKSLASH
  {
  }

  lemma LiteralUnit(c: Code, rest: Text)
    requires c >= 32 && c != QUOTE && c != BACKSLASH
    ensures ParseString([c] + rest) == Prefixed(c, ParseString(rest))
  {
    assert ([c] + rest)[1..] == rest;
  }

  // ---- Numbers ------------------------------------------------------------------------------

  /** What JavaScript makes of a number literal. A finite number other than negative zero is
      identified with the text JavaScript prints for it. */
  datatype Number = Finite(text: Text) | NegativeZero | NonFinite

  /** How number literals are read. */
  type Reader = Text -> Number

  predicate IsNumberCode(c: Code) {
    IsDigitCode(c) || c == MINUS || c == '+' as int || c == '.' as int || c == 'e' as int || c == 'E' as int
  }

  /** How many codes of `t` up to the first that `p` does not hold of. */
  function Leading(t: Text, p: Code -> bool): (n: nat)
    ensures n <= |t| && (n < |t| ==> !p(t[n])) && forall i :: 0 <= i < n ==> p(t[i])
  {
    if t == [] || !p(t[0]) then 0 else 1 + Leading(t[1..], p)
  }

  function Digits(t: Text): (n: nat)
    ensures n <= |t|
  {
    Leading(t, IsDigitCode)
  }

  predicate IsExponent(t: Text) {
    || t == []
    || ((t[0] == 'e' as int || t[0] == 'E' as int) &&
        var u := if |t| > 1 && (t[1] == '+' as int || t[1] == MINUS) then t[2..] else t[1..];
        |u| > 0 && Digits(u) == |u|)
  }

  predicate IsFraction(t: Text) {
    if t != [] && t[0] == '.' as int then
      var n := Digits(t[1..]);
      n > 0 && IsExponent(t[1..][n..])
    else
      IsExponent(t)
  }

  predicate IsUnsigned(t: Text) {
    var n := Digits(t);
    n > 0 && (n == 1 || t[0] != '0' as int) && IsFraction(t[n..])
  }

  predicate IsNumberLiteral(t: Text) {
    if t != [] && t[0] == MINUS then IsUnsigned(t[1..]) else IsUnsigned(t)
  }

  /** JavaScript reads the text it prints for a number as that number. */
  ghost predicate ReadsBack(read: Reader) {
    && (forall t :: read(t).Finite? ==> IsNumberLiteral(read(t).text) && read(read(t).text) == read(t))
    && read(T("0")) == Finite(T("0"))
  }

  ghost predicate AllNumberCodes(t: Text) {
    forall i :: 0 <= i < |t| ==> IsNumberCode(t[i])
  }

  lemma ExponentCodes(t: Text)
    requires IsExponent(t)
    ensures AllNumberCodes(t)
  {
    if t != [] {
      var k := if |t| > 1 && (t[1] == '+' as int || t[1] == MINUS) then 2 else 1;
      assert forall i :: k <= i < |t| ==> t[i] == t[k..][i - k];
    }
  }

  lemma FractionCodes(t: Text)
    requires IsFraction(t)
    ensures AllNumberCodes(t)
  {
    hide IsExponent;
    if t != [] && t[0] == '.' as int {
      var u, n := t[1..], Digits(t[1..]);
      ExponentCodes(u[n..]);
      assert forall i :: 1 + n <= i < |t| ==> t[i] == u[n..][i - 1 - n];
      assert forall i :: 1 <= i < 1 + n ==> t[i] == u[i - 1];
    } else {
      ExponentCodes(t);
    }
  }

  lemma UnsignedCodes(t: Text)
    requires IsUnsigned(t)
    ensures t != [] && AllNumberCodes(t) && IsDigitCode(t[0])
  {
    hide IsFraction, IsExponent;
    var n := Digits(t);
    FractionCodes(t[n..]);
    assert forall i :: n <= i < |t| ==> t[i] == t[n..][i - n];
  }

  lemma NumberLiteralCodes(t: Text)
    requires IsNumberLiteral(t)
    ensures t != [] && AllNumberCodes(t) && (t[0] == MINUS || IsDigitCode(t[0]))
  {
    hide IsUnsigned;
    if t != [] && t[0] == MINUS {
      UnsignedCodes(t[1..]);
      assert forall i :: 1 <= i < |t| ==> t[i] == t[1..][i - 1];
    } else {
      UnsignedCodes(t);
    }
  }

  lemma {:induction false} LeadingStops(a: Text, b: Text, p: Code -> bool)
    requires (forall i :: 0 <= i < |a| ==> p(a[i])) && (b == [] || !p(b[0]))
    ensures Leading(a + b, p) == |a|
  {
    if a != [] {
      assert (a + b)[1..] == a[1..] + b;
      LeadingStops(a[1..], b, p);
    } else {
      assert a + b == b;
    }
  }
}
