/**
 * The string building blocks the client's URL builders use: Go's `%d`
 * formatting of integers, zero-padded decimal fields of the time formats,
 * strings.Join, and url.QueryEscape. Each comes with the reference reader
 * that undoes it (a digit parser, strings.Split, a percent decoder), and the
 * lemmas here prove the round trips.
 */
module Text {
  import opened Wrappers

  type byte = b: int | 0 <= b < 256

  // ---------------------------------------------------------------------
  // Decimal digits

  predicate IsDigit(c: char) {
    '0' <= c <= '9'
  }

  predicate AllDigits(s: string) {
    forall i :: 0 <= i < |s| ==> IsDigit(s[i])
  }

  function DigitValue(c: char): nat
    requires IsDigit(c)
  {
    c as int - '0' as int
  }

  function DigitChar(d: nat): (c: char)
    requires d < 10
    ensures IsDigit(c) && DigitValue(c) == d
  {
    ('0' as int + d) as char
  }

  /** The number denoted by a string of decimal digits, most significant first. */
  function DigitsValue(s: string): nat
    requires AllDigits(s)
  {
    if s == [] then 0 else DigitsValue(s[..|s| - 1]) * 10 + DigitValue(s[|s| - 1])
  }

  function Pow10(n: nat): (p: nat)
    ensures p >= 1
  {
    if n == 0 then 1 else 10 * Pow10(n - 1)
  }

  /** Decimal text of a natural number, without leading zeros (Go's `%d`). */
  function Decimal(n: nat): (s: string)
    ensures 1 <= |s| && AllDigits(s)
    ensures DigitsValue(s) == n
    ensures s[0] == '0' ==> n == 0 && |s| == 1
  {
    if n < 10 then
      [DigitChar(n)]
    else
      var s := Decimal(n / 10) + [DigitChar(n % 10)];
      assert s[..|s| - 1] == Decimal(n / 10);
      s
  }

  lemma {:induction false} DecimalLength(n: nat, width: nat)
    ensures 1 <= width && n < Pow10(width) ==> |Decimal(n)| <= width
  {
    if n >= 10 && width >= 1 {
      DecimalLength(n / 10, width - 1);
    }
  }

  function Zeros(k: nat): (s: string)
    ensures |s| == k && AllDigits(s)
    ensures forall i :: 0 <= i < k ==> s[i] == '0'
  {
    seq(k, _ => '0')
  }

  lemma {:induction false} ZerosValue(k: nat)
    ensures DigitsValue(Zeros(k)) == 0
  {
    if k > 0 {
      assert Zeros(k)[..k - 1] == Zeros(k - 1);
      ZerosValue(k - 1);
    }
  }

  /** Leading zeros do not change the value of a digit string. */
  lemma {:induction false} LeadingZeros(k: nat, s: string)
    requires AllDigits(s)
    ensures AllDigits(Zeros(k) + s)
    ensures DigitsValue(Zeros(k) + s) == DigitsValue(s)
  {
    var z := Zeros(k) + s;
    assert AllDigits(z);
    if s == [] {
      assert z == Zeros(k);
      ZerosValue(k);
    } else {
      assert z[..|z| - 1] == Zeros(k) + s[..|s| - 1];
      LeadingZeros(k, s[..|s| - 1]);
    }
  }

  /** A digit string is below ten to the power of its length. */
  lemma {:induction false} DigitsBound(s: string)
    requires AllDigits(s)
    ensures DigitsValue(s) < Pow10(|s|)
  {
    if s != [] {
      DigitsBound(s[..|s| - 1]);
    }
  }

  /** The last digit and the rest of a decimal number are determined by its value. */
  lemma LastDigit(p: nat, q: nat, x: nat, y: nat)
    requires x < 10 && y < 10 && p * 10 + x == q * 10 + y
    ensures p == q && x == y
  {
    assert p == (p * 10 + x) / 10 && q == (q * 10 + y) / 10;
  }

  /** Two digit strings of the same length and value are the same string. */
  lemma {:induction false} DigitsInjective(a: string, b: string)
    requires AllDigits(a) && AllDigits(b) && |a| == |b|
    requires DigitsValue(a) == DigitsValue(b)
    ensures a == b
  {
    if a != [] {
      var n := |a| - 1;
      var pa, pb := a[..n], b[..n];
      var x, y := DigitValue(a[n]), DigitValue(b[n]);
      assert DigitsValue(a) == DigitsValue(pa) * 10 + x;
      assert DigitsValue(b) == DigitsValue(pb) * 10 + y;
      LastDigit(DigitsValue(pa), DigitsValue(pb), x, y);
      DigitsInjective(pa, pb);
      forall i | 0 <= i < |a|
        ensures a[i] == b[i]
      {
        if i < n {
          assert a[i] == pa[i] && b[i] == pb[i];
        }
      }
    }
  }

  /** Go's appendInt with a minimum width: the decimal text, zero-padded on the left. */
  function PadDecimal(n: nat, width: nat): (s: string)
    ensures AllDigits(s) && DigitsValue(s) == n
    ensures 1 <= width && n < Pow10(width) ==> |s| == width
  {
    var d := Decimal(n);
    LeadingZeros(if |d| < width then width - |d| else 0, d);
    DecimalLength(n, width);
    if |d| < width then Zeros(width - |d|) + d else d
  }

  /** Reading a fixed-width digit field and writing it back at that width gives the field. */
  lemma FixedWidthRoundTrip(t: string)
    requires 1 <= |t| && AllDigits(t)
    ensures PadDecimal(DigitsValue(t), |t|) == t
  {
    DigitsBound(t);
    DigitsInjective(PadDecimal(DigitsValue(t), |t|), t);
  }

  // ---------------------------------------------------------------------
  // Signed integers, as fmt's `%d` writes them

  /** Reference reader for `%d` text: an optional '-' followed by digits. */
  function ParseInt(s: string): Option<int> {
    if |s| >= 2 && s[0] == '-' && AllDigits(s[1..]) then Some(-(DigitsValue(s[1..]) as int))
    else if |s| >= 1 && AllDigits(s) then Some(DigitsValue(s))
    else None
  }

  function FormatInt(i: int): (s: string)
    ensures ParseInt(s) == Some(i)
    ensures 1 <= |s| && forall k :: 0 <= k < |s| ==> IsDigit(s[k]) || s[k] == '-'
  {
    if i < 0 then
      var s := "-" + Decimal(-i);
      assert s[1..] == Decimal(-i);
      s
    else
      Decimal(i)
  }

  lemma FormatIntInjective(a: int, b: int)
    requires FormatInt(a) == FormatInt(b)
    ensures a == b
  {
    assert Some(a) == ParseInt(FormatInt(a)) == ParseInt(FormatInt(b)) == Some(b);
  }

  /**
   * A text made of a fixed prefix, a formatted integer and a fixed suffix
   * determines the integer: distinct ids give distinct URLs.
   */
  lemma IdSegmentInjective(prefix: string, a: int, b: int, suffix: string)
    requires prefix + FormatInt(a) + suffix == prefix + FormatInt(b) + suffix
    ensures a == b
  {
    var x, y := prefix + FormatInt(a) + suffix, prefix + FormatInt(b) + suffix;
    assert |FormatInt(a)| == |FormatInt(b)|;
    assert FormatInt(a) == x[|prefix|..|prefix| + |FormatInt(a)|];
    assert FormatInt(b) == y[|prefix|..|prefix| + |FormatInt(b)|];
    FormatIntInjective(a, b);
  }

  /** A path that starts with a formatted id followed by a '/' determines the id and the rest. */
  lemma LeadingIdInjective(a: int, b: int, x: string, y: string)
    requires 0 < |x| && x[0] == '/' && 0 < |y| && y[0] == '/'
    requires FormatInt(a) + x == FormatInt(b) + y
    ensures a == b && x == y
  {
    var fa, fb := FormatInt(a), FormatInt(b);
    assert '/' !in fa && '/' !in fb;
    IndexOfAppend(fa, x, '/');
    IndexOfAppend(fb, y, '/');
    var s := fa + x;
    assert fa == s[..|fa|] && fb == s[..|fb|];
    FormatIntInjective(a, b);
    assert x == s[|fa|..] && y == s[|fb|..];
  }

  // ---------------------------------------------------------------------
  // strings.Join and strings.Split

  function Join(parts: seq<string>, sep: string): string {
    if |parts| == 0 then ""
    else if |parts| == 1 then parts[0]
    else parts[0] + sep + Join(parts[1..], sep)
  }

  function IndexOf(s: string, c: char): (i: nat)
    requires c in s
    ensures i < |s| && s[i] == c && c !in s[..i]
  {
    if s[0] == c then 0
    else
      var j := IndexOf(s[1..], c);
      assert s[..j + 1] == [s[0]] + s[1..][..j];
      j + 1
  }

  /** The first occurrence in a joined text lies in the second part when the first has none. */
  lemma {:induction false} IndexOfAppend(a: string, b: string, c: char)
    requires c !in a && c in b
    ensures IndexOf(a + b, c) == |a| + IndexOf(b, c)
  {
    if a == [] {
      assert a + b == b;
    } else {
      assert (a + b)[0] == a[0] && (a + b)[1..] == a[1..] + b;
      IndexOfAppend(a[1..], b, c);
    }
  }

  /** strings.Split on a one-character separator: always at least one piece. */
  function Split(s: string, c: char): (parts: seq<string>)
    ensures |parts| >= 1
    decreases |s|
  {
    if c in s then
      var i := IndexOf(s, c);
      [s[..i]] + Split(s[i + 1..], c)
    else
      [s]
  }

  /** Splitting at the first separator: the piece before it, then the rest. */
  lemma SplitAtFirst(a: string, c: char, rest: string)
    requires c !in a
    ensures Split(a + [c] + rest, c) == [a] + Split(rest, c)
  {
    var s := a + [c] + rest;
    assert s[|a|] == c;
    IndexOfAppend(a, [c] + rest, c);
    assert s == a + ([c] + rest);
    assert s[..|a|] == a && s[|a| + 1..] == rest;
  }

  /** Joining pieces that do not contain the separator can be undone by splitting. */
  lemma {:induction false} SplitJoin(parts: seq<string>, c: char)
    requires |parts| >= 1
    requires forall k :: 0 <= k < |parts| ==> c !in parts[k]
    ensures Split(Join(parts, [c]), c) == parts
  {
    if |parts| > 1 {
      var rest := Join(parts[1..], [c]);
      assert Join(parts, [c]) == parts[0] + [c] + rest;
      SplitAtFirst(parts[0], c, rest);
      SplitJoin(parts[1..], c);
      assert parts == [parts[0]] + parts[1..];
    }
  }

  // ---------------------------------------------------------------------
  // url.QueryEscape

  /** Bytes that url.QueryEscape leaves as they are. */
  predicate Unreserved(c: char) {
    'A' <= c <= 'Z' || 'a' <= c <= 'z' || '0' <= c <= '9' || c == '-' || c == '_' || c == '.' || c == '~'
  }

  /** Characters an escaped query value can contain. */
  predicate QuerySafe(c: char) {
    Unreserved(c) || c == '%' || c == '+'
  }

  function HexDigit(v: nat): (c: char)
    requires v < 16
    ensures Unreserved(c)
  {
    if v < 10 then ('0' as int + v) as char else ('A' as int + v - 10) as char
  }

  function HexValue(c: char): (r: Option<nat>)
    ensures r.Some? ==> r.value < 16
  {
    if '0' <= c <= '9' then Some(c as int - '0' as int)
    else if 'A' <= c <= 'F' then Some(c as int - 'A' as int + 10)
    else if 'a' <= c <= 'f' then Some(c as int - 'a' as int + 10)
    else None
  }

  /** The UTF-8 encoding of one Unicode scalar value. */
  function Utf8(c: char): (bs: seq<byte>)
    ensures 1 <= |bs| <= 4
    ensures c as int < 128 ==> bs == [c as int]
  {
    var u := c as int;
    if u < 0x80 then [u]
    else if u < 0x800 then [0xC0 + u / 64, 0x80 + u % 64]
    else if u < 0x1_0000 then [0xE0 + u / 4096, 0x80 + (u / 64) % 64, 0x80 + u % 64]
    else [0xF0 + u / 262144, 0x80 + (u / 4096) % 64, 0x80 + (u / 64) % 64, 0x80 + u % 64]
  }

  function Utf8String(s: string): seq<byte> {
    if s == [] then [] else Utf8(s[0]) + Utf8String(s[1..])
  }

  /** The length of a UTF-8 sequence, read from its lead byte. */
  function Utf8Width(lead: byte): nat {
    if lead < 0x80 then 1 else if lead < 0xE0 then 2 else if lead < 0xF0 then 3 else 4
  }

  /** The scalar value a UTF-8 sequence of one to four bytes encodes. */
  function Utf8Value(bs: seq<byte>): int
    requires 1 <= |bs| <= 4
  {
    if |bs| == 1 then bs[0]
    else if |bs| == 2 then (bs[0] as int - 0xC0) * 64 + (bs[1] as int - 0x80)
    else if |bs| == 3 then (bs[0] as int - 0xE0) * 4096 + (bs[1] as int - 0x80) * 64 + (bs[2] as int - 0x80)
    else (bs[0] as int - 0xF0) * 262144 + (bs[1] as int - 0x80) * 4096 + (bs[2] as int - 0x80) * 64 + (bs[3] as int - 0x80)
  }

  /** A character's encoding announces its own length in its lead byte, and decodes back to the character. */
  lemma Utf8Decodes(c: char)
    ensures Utf8Width(Utf8(c)[0]) == |Utf8(c)|
    ensures Utf8Value(Utf8(c)) == c as int
  {
    var u := c as int;
    if 0x80 <= u < 0x800 {
      assert u == (u / 64) * 64 + u % 64;
    } else if 0x800 <= u < 0x1_0000 {
      assert u / 64 == (u / 4096) * 64 + (u / 64) % 64;
      assert u == (u / 64) * 64 + u % 64;
    } else if 0x1_0000 <= u {
      assert u / 4096 == (u / 262144) * 64 + (u / 4096) % 64;
      assert u / 64 == (u / 4096) * 64 + (u / 64) % 64;
      assert u == (u / 64) * 64 + u % 64;
    }
  }

  /** Different characters have different encodings. */
  lemma Utf8Injective(a: char, b: char)
    requires Utf8(a) == Utf8(b)
    ensures a == b
  {
    Utf8Decodes(a);
    Utf8Decodes(b);
  }

  /** Different texts have different encodings: the lead bytes cut the bytes back into characters. */
  lemma {:induction false} Utf8StringInjective(s: string, t: string)
    requires Utf8String(s) == Utf8String(t)
    ensures s == t
  {
    if s != [] && t != [] {
      var bs := Utf8String(s);
      Utf8Decodes(s[0]);
      Utf8Decodes(t[0]);
      assert bs == Utf8(s[0]) + Utf8String(s[1..]) == Utf8(t[0]) + Utf8String(t[1..]);
      assert bs[0] == Utf8(s[0])[0] == Utf8(t[0])[0];
      var n := |Utf8(s[0])|;
      assert Utf8(s[0]) == bs[..n] == Utf8(t[0]);
      Utf8Injective(s[0], t[0]);
      assert Utf8String(s[1..]) == bs[n..] == Utf8String(t[1..]);
      Utf8StringInjective(s[1..], t[1..]);
      assert s == [s[0]] + s[1..] && t == [t[0]] + t[1..];
    }
  }

  function PercentEncode(bs: seq<byte>): (s: string)
    ensures |s| == 3 * |bs|
    ensures forall i :: 0 <= i < |s| ==> QuerySafe(s[i])
  {
    if bs == [] then "" else ['%', HexDigit(bs[0] / 16), HexDigit(bs[0] % 16)] + PercentEncode(bs[1..])
  }

  function EscapeChar(c: char): (s: string)
    ensures forall i :: 0 <= i < |s| ==> QuerySafe(s[i])
  {
    if Unreserved(c) then [c]
    else if c == ' ' then "+"
    else PercentEncode(Utf8(c))
  }

  /**
   * url.QueryEscape: letters, digits and "-_.~" stay, a space becomes '+',
   * every other byte of the UTF-8 text becomes "%XX". The result cannot end
   * the query parameter early: it holds no '&', '=', '#' or space.
   */
  function QueryEscape(s: string): (r: string)
    ensures forall i :: 0 <= i < |r| ==> QuerySafe(r[i])
    ensures '&' !in r && '=' !in r && '#' !in r && ' ' !in r
  {
    if s == [] then "" else EscapeChar(s[0]) + QueryEscape(s[1..])
  }

  function Prepend(bs: seq<byte>, o: Option<seq<byte>>): Option<seq<byte>> {
    match o
    case None => None
    case Some(rest) => Some(bs + rest)
  }

  /** Reference decoder for query values (url.QueryUnescape), giving the bytes. */
  function QueryUnescape(s: string): Option<seq<byte>>
    decreases |s|
  {
    if s == [] then Some([])
    else if s[0] == '%' then
      if |s| < 3 || HexValue(s[1]).None? || HexValue(s[2]).None? then None
      else Prepend([HexValue(s[1]).value * 16 + HexValue(s[2]).value], QueryUnescape(s[3..]))
    else if s[0] as int >= 128 then None
    else Prepend([if s[0] == '+' then 32 else s[0] as int], QueryUnescape(s[1..]))
  }

  /** A byte's two hexadecimal digits read back as its high and low halves. */
  lemma HexPair(b: byte)
    ensures HexValue(HexDigit(b / 16)) == Some(b / 16) && HexValue(HexDigit(b % 16)) == Some(b % 16)
    ensures (b / 16) * 16 + b % 16 == b
  {
  }

  lemma PrependTwice(a: seq<byte>, b: seq<byte>, o: Option<seq<byte>>)
    ensures Prepend(a, Prepend(b, o)) == Prepend(a + b, o)
  {
    if o.Some? {
      assert a + (b + o.value) == (a + b) + o.value;
    }
  }

  lemma {:induction false} UnescapePercent(bs: seq<byte>, rest: string)
    ensures QueryUnescape(PercentEncode(bs) + rest) == Prepend(bs, QueryUnescape(rest))
  {
    if bs == [] {
      assert PercentEncode(bs) + rest == rest;
      match QueryUnescape(rest) {
        case None =>
        case Some(r) => assert bs + r == r;
      }
    } else {
      var b := bs[0];
      var t := PercentEncode(bs[1..]) + rest;
      var s := PercentEncode(bs) + rest;
      assert s == ['%', HexDigit(b / 16), HexDigit(b % 16)] + t;
      assert s[0] == '%' && s[1] == HexDigit(b / 16) && s[2] == HexDigit(b % 16) && s[3..] == t;
      HexPair(b);
      assert QueryUnescape(s) == Prepend([b], QueryUnescape(t));
      UnescapePercent(bs[1..], rest);
      PrependTwice([b], bs[1..], QueryUnescape(rest));
      assert [b] + bs[1..] == bs;
    }
  }

  lemma UnescapeChar(c: char, rest: string)
    ensures QueryUnescape(EscapeChar(c) + rest) == Prepend(Utf8(c), QueryUnescape(rest))
  {
    if Unreserved(c) || c == ' ' {
      var s := EscapeChar(c) + rest;
      assert s[1..] == rest;
    } else {
      UnescapePercent(Utf8(c), rest);
    }
  }

  /** Decoding an escaped query value gives back the UTF-8 bytes of the original text. */
  lemma {:induction false} QueryEscapeRoundTrip(s: string)
    ensures QueryUnescape(QueryEscape(s)) == Some(Utf8String(s))
  {
    if s != [] {
      UnescapeChar(s[0], QueryEscape(s[1..]));
      QueryEscapeRoundTrip(s[1..]);
    }
  }
  /** Different texts escape differently: unescaping recovers the text's encoding, and the encoding the text. */
  lemma QueryEscapeInjective(s: string, t: string)
    requires QueryEscape(s) == QueryEscape(t)
    ensures s == t
  {
    QueryEscapeRoundTrip(s);
    QueryEscapeRoundTrip(t);
    Utf8StringInjective(s, t);
  }

}
