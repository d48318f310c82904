/** The part of JSON text the run protocol depends on: how many bytes a string takes once
    escaped (section 7 of RFC 8259, as serde_json writes it), how wide a decimal number can
    be, and that a serialized tuple of strings determines the strings. */
module JsonText {

  const QUOTE: char := '\"'
  const BACKSLASH: char := '\\'

  /** A JSON value that the protocol carries without looking inside, as its compact text. */
  datatype Json = Json(text: string)

  // ---- UTF-8 sizes ----

  function Utf8Width(c: char): (n: nat)
    ensures 1 <= n <= 4
  {
    var code := c as int;
    if code < 0x80 then 1 else if code < 0x800 then 2 else if code < 0x1_0000 then 3 else 4
  }

  /** The bytes of a character in UTF-8 (section 3 of RFC 3629). */
  function Utf8Bytes(c: char): (bytes: seq<int>)
    ensures |bytes| == Utf8Width(c)
  {
    var n := c as int;
    var high := n / 0x40;
    if n < 0x80 then [n]
    else if n < 0x800 then [0xC0 + high, 0x80 + n % 0x40]
    else if n < 0x1_0000 then [0xE0 + high / 0x40, 0x80 + high % 0x40, 0x80 + n % 0x40]
    else [0xF0 + high / 0x40 / 0x40, 0x80 + high / 0x40 % 0x40, 0x80 + high % 0x40, 0x80 + n % 0x40]
  }

  /** The payload bits of the bytes of a character, put together. */
  function CodePoint(bytes: seq<int>): int {
    match |bytes|
    case 1 => bytes[0]
    case 2 => (bytes[0] - 0xC0) * 0x40 + (bytes[1] - 0x80)
    case 3 => ((bytes[0] - 0xE0) * 0x40 + (bytes[1] - 0x80)) * 0x40 + (bytes[2] - 0x80)
    case 4 => (((bytes[0] - 0xF0) * 0x40 + (bytes[1] - 0x80)) * 0x40 + (bytes[2] - 0x80)) * 0x40 + (bytes[3] - 0x80)
    case _ => 0
  }

  /** The width of a character is that of its bytes, which give it back and fit the marks in front
      of their payload bits. */
  lemma Utf8RoundTrip(c: char)
    ensures var bytes := Utf8Bytes(c);
      && CodePoint(bytes) == c as int
      && (forall i :: 0 < i < |bytes| ==> 0x80 <= bytes[i] < 0xC0)
      && (match |bytes|
          case 1 => bytes[0] < 0x80
          case 2 => 0xC2 <= bytes[0] < 0xE0
          case 3 => 0xE0 <= bytes[0] < 0xF0 && (bytes[0] == 0xE0 ==> 0xA0 <= bytes[1])
          case _ => 0xF0 <= bytes[0] < 0xF5 && (bytes[0] == 0xF0 ==> 0x90 <= bytes[1]))
  {
  }

  function Utf8Len(s: string): nat {
    if s == [] then 0 else Utf8Width(s[0]) + Utf8Len(s[1..])
  }

  lemma {:induction false} Utf8LenConcat(a: string, b: string)
    ensures Utf8Len(a + b) == Utf8Len(a) + Utf8Len(b)
  {
    if a == [] {
      assert a + b == b;
    } else {
      assert (a + b)[1..] == a[1..] + b;
      Utf8LenConcat(a[1..], b);
    }
  }

  /** A string of n characters takes between n and 4 * n bytes. */
  lemma {:induction false} Utf8LenBounds(s: string)
    ensures |s| <= Utf8Len(s) <= 4 * |s|
  {
    if s != [] {
      Utf8LenBounds(s[1..]);
    }
  }

  // ---- String escaping ----

  function Hex(n: nat): (c: char)
    requires n < 16
    ensures c != QUOTE && c != BACKSLASH
    ensures Utf8Width(c) == 1
  {
    "0123456789abcdef"[n]
  }

  function EscapeChar(c: char): (e: string)
    ensures e != [] && e[0] != QUOTE
  {
    var code := c as int;
    if c == QUOTE then [BACKSLASH, QUOTE]
    else if c == BACKSLASH then [BACKSLASH, BACKSLASH]
    else if code == 0x08 then [BACKSLASH, 'b']
    else if code == 0x09 then [BACKSLASH, 't']
    else if code == 0x0A then [BACKSLASH, 'n']
    else if code == 0x0C then [BACKSLASH, 'f']
    else if code == 0x0D then [BACKSLASH, 'r']
    else if code < 0x20 then [BACKSLASH, 'u', '0', '0', Hex(code / 16), Hex(code % 16)]
    else [c]
  }

  function Escape(s: string): string {
    if s == [] then [] else EscapeChar(s[0]) + Escape(s[1..])
  }

  function Quoted(s: string): string {
    [QUOTE] + Escape(s) + [QUOTE]
  }

  // ---- Escaped sizes ----

  function EscapedWidth(c: char): nat {
    var code := c as int;
    if c == QUOTE || c == BACKSLASH || code in {0x08, 0x09, 0x0A, 0x0C, 0x0D} then 2
    else if code < 0x20 then 6
    else Utf8Width(c)
  }

  function EscapedLen(s: string): nat {
    if s == [] then 0 else EscapedWidth(s[0]) + EscapedLen(s[1..])
  }

  /** The serialized size of a string, in bytes. */
  function StringSize(s: string): nat {
    2 + EscapedLen(s)
  }

  lemma {:induction false} AsciiLen(s: string)
    requires forall i :: 0 <= i < |s| ==> Utf8Width(s[i]) == 1
    ensures Utf8Len(s) == |s|
  {
    if s != [] {
      AsciiLen(s[1..]);
    }
  }

  /** `EscapedLen` is the number of bytes of the escaped text. */
  lemma {:induction false} EscapedLenIsSize(s: string)
    ensures EscapedLen(s) == Utf8Len(Escape(s))
  {
    if s != [] {
      var e := EscapeChar(s[0]);
      if e == [s[0]] {
        assert e[1..] == [];
      } else {
        AsciiLen(e);
      }
      Utf8LenConcat(e, Escape(s[1..]));
      EscapedLenIsSize(s[1..]);
    }
  }

  /** Escaping grows a string to at most six times its bytes, and to at most six bytes for a
      character however many bytes the character took. */
  lemma {:induction false} EscapeGrowth(s: string)
    ensures EscapedLen(s) <= 6 * |s| <= 6 * Utf8Len(s)
  {
    if s != [] {
      EscapeGrowth(s[1..]);
    }
  }

  /** The factor six is reached: every U+0001 becomes six bytes. */
  lemma {:induction false} EscapeGrowthReached(n: nat)
    ensures var s := seq(n, _ => '\U{0001}'); Utf8Len(s) == n && EscapedLen(s) == 6 * n
  {
    if n > 0 {
      EscapeGrowthReached(n - 1);
      assert seq(n, _ => '\U{0001}')[1..] == seq(n - 1, _ => '\U{0001}');
    }
  }

  // ---- Escaped text determines the string ----

  function HexValue(c: char): nat {
    if '0' <= c <= '9' then c as int - '0' as int else if 'a' <= c <= 'f' then c as int - 'a' as int + 10 else 0
  }

  /** The character whose escape a text starts with, and the length of that escape. */
  function FirstEscape(t: string): (char, nat)
    requires t != []
  {
    if t[0] != BACKSLASH || |t| == 1 then (t[0], 1)
    else
      match t[1]
      case 'b' => ('\U{0008}', 2)
      case 't' => ('\U{0009}', 2)
      case 'n' => ('\U{000A}', 2)
      case 'f' => ('\U{000C}', 2)
      case 'r' => ('\U{000D}', 2)
      case 'u' => if |t| < 6 then (t[0], 1) else ((HexValue(t[4]) * 16 + HexValue(t[5])) as char, 6)
      case c => (c, 2)
  }

  lemma HexDigits(n: nat)
    requires n < 16
    ensures HexValue(Hex(n)) == n
  {
  }

  lemma FirstEscapeDecodes(c: char, x: string)
    ensures FirstEscape(EscapeChar(c) + x) == (c, |EscapeChar(c)|)
  {
    var code := c as int;
    var e := EscapeChar(c);
    var t := e + x;
    assert forall i :: 0 <= i < |e| ==> t[i] == e[i];
    if |e| == 6 {
      HexDigits(code / 16);
      HexDigits(code % 16);
    }
  }

  /** Two texts that start with an escape and are equal start with the same character's escape. */
  lemma EscapeCharPrefixFree(a: char, b: char, x: string, y: string)
    requires EscapeChar(a) + x == EscapeChar(b) + y
    ensures a == b && x == y
  {
    FirstEscapeDecodes(a, x);
    FirstEscapeDecodes(b, y);
    var l, r, n := EscapeChar(a) + x, EscapeChar(b) + y, |EscapeChar(a)|;
    assert x == l[n..] && y == r[n..];
  }

  /** The rest of a text after an opening quote: an escaped string, its quote, what follows. */
  function Ended(s: string, x: string): (r: string)
    ensures r != []
  {
    Escape(s) + [QUOTE] + x
  }

  lemma EndedStep(s: string, x: string)
    ensures s == [] ==> Ended(s, x)[0] == QUOTE && Ended(s, x)[1..] == x
    ensures s != [] ==> Ended(s, x)[0] != QUOTE
    ensures s != [] ==> Ended(s, x) == EscapeChar(s[0]) + Ended(s[1..], x)
  {
    hide EscapeChar;
    if s == [] {
      assert Ended(s, x) == [QUOTE] + x;
    } else {
      var e := EscapeChar(s[0]);
      assert Ended(s, x) == e + Ended(s[1..], x);
    }
  }

  lemma {:induction false} EscapePrefixFree(a: string, b: string, x: string, y: string)
    requires Ended(a, x) == Ended(b, y)
    ensures a == b && x == y
  {
    EndedStep(a, x);
    EndedStep(b, y);
    if a != [] {
      EscapeCharPrefixFree(a[0], b[0], Ended(a[1..], x), Ended(b[1..], y));
      EscapePrefixFree(a[1..], b[1..], x, y);
      assert a == [a[0]] + a[1..] && b == [b[0]] + b[1..];
    }
  }

  /** Two texts that start with a quoted string start with the same one and go on equally. */
  lemma QuotedPrefixFree(a: string, b: string, x: string, y: string)
    requires Quoted(a) + x == Quoted(b) + y
    ensures a == b && x == y
  {
    var l, r := Quoted(a) + x, Quoted(b) + y;
    assert l[1..] == Ended(a, x) && r[1..] == Ended(b, y);
    EscapePrefixFree(a, b, x, y);
  }

  /** The serialized form of a tuple of four strings. */
  function TupleText(a: string, b: string, c: string, d: string): string {
    "[" + (Quoted(a) + ("," + (Quoted(b) + ("," + (Quoted(c) + ("," + (Quoted(d) + "]")))))))
  }

  lemma TupleTextInjective(a: string, b: string, c: string, d: string, a': string, b': string, c': string, d': string)
    requires TupleText(a, b, c, d) == TupleText(a', b', c', d')
    ensures a == a' && b == b' && c == c' && d == d'
  {
    var t1, t1' := Quoted(d) + "]", Quoted(d') + "]";
    var t2, t2' := Quoted(c) + ("," + t1), Quoted(c') + ("," + t1');
    var t3, t3' := Quoted(b) + ("," + t2), Quoted(b') + ("," + t2');
    var t4, t4' := Quoted(a) + ("," + t3), Quoted(a') + ("," + t3');
    assert TupleText(a, b, c, d)[1..] == t4 && TupleText(a', b', c', d')[1..] == t4';
    QuotedPrefixFree(a, a', "," + t3, "," + t3');
    assert ("," + t3)[1..] == t3 && ("," + t3')[1..] == t3';
    QuotedPrefixFree(b, b', "," + t2, "," + t2');
    assert ("," + t2)[1..] == t2 && ("," + t2')[1..] == t2';
    QuotedPrefixFree(c, c', "," + t1, "," + t1');
    assert ("," + t1)[1..] == t1 && ("," + t1')[1..] == t1';
    QuotedPrefixFree(d, d', "]", "]");
  }

  // ---- Decimal numbers ----

  function Digit(n: nat): (c: char)
    requires n < 10
    ensures c != ':' && c != QUOTE && Utf8Width(c) == 1
  {
    "0123456789"[n]
  }

  function Decimal(n: nat): (s: string)
    ensures s != []
  {
    if n < 10 then [Digit(n)] else Decimal(n / 10) + [Digit(n % 10)]
  }

  /** The serialized size of an integer, with its sign. */
  function IntegerSize(n: int): nat {
    if n < 0 then 1 + |Decimal(-n)| else |Decimal(n)|
  }

  function Pow10(k: nat): nat {
    if k == 0 then 1 else 10 * Pow10(k - 1)
  }

  /** A number below 10^k has at most k digits. */
  lemma {:induction false} DecimalWidth(n: nat, k: nat)
    requires k > 0 && n < Pow10(k)
    ensures |Decimal(n)| <= k
  {
    if n >= 10 {
      assert Pow10(k) == 10 * Pow10(k - 1) && Pow10(0) == 1;
      DecimalWidth(n / 10, k - 1);
    }
  }

  lemma {:induction false} DecimalNoColon(n: nat)
    ensures ':' !in Decimal(n)
  {
    if n >= 10 {
      DecimalNoColon(n / 10);
    }
  }

  function ReadDecimal(s: string): int {
    if s == [] then 0 else 10 * ReadDecimal(s[..|s| - 1]) + (s[|s| - 1] as int - '0' as int)
  }

  lemma {:induction false} DecimalReads(n: nat)
    ensures ReadDecimal(Decimal(n)) == n
    ensures Utf8Len(Decimal(n)) == |Decimal(n)|
  {
    if n >= 10 {
      DecimalReads(n / 10);
      assert Decimal(n)[..|Decimal(n)| - 1] == Decimal(n / 10);
      Utf8LenConcat(Decimal(n / 10), [Digit(n % 10)]);
    }
    assert Utf8Len([Digit(n % 10)]) == 1;
  }

  /** A number is read back from its digits. */
  lemma DecimalInjective(m: nat, n: nat)
    ensures ReadDecimal(Decimal(m)) == m
    ensures Decimal(m) == Decimal(n) ==> m == n
  {
    DecimalReads(m);
    DecimalReads(n);
  }
}
