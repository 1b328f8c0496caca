/**
 * The string and colour helpers of Lux/Xtensions/Extensions.swift that the
 * rest of Lux depends on: the `alphanumeric` filter behind stream names, the
 * base64 wrappers, the hex colour initialisers (with the `Scanner` they
 * drive) and the display names of text styles.
 */
module Extensions {
  import opened Wrappers
  import opened CoreTypes
  import Utf8

  // ---------------------------------------------------------------------
  // String.alphanumeric
  // ---------------------------------------------------------------------

  /** Membership in `CharacterSet.alphanumerics`, restricted to ASCII. */
  predicate IsAlphanumeric(c: char) {
    IsAsciiLower(c) || IsAsciiUpper(c) || IsAsciiDigit(c)
  }

  /** `alphanumeric`: splitting at every non-alphanumeric character and
      joining the pieces keeps the alphanumeric characters in order. */
  function Alphanumeric(s: string): (r: string)
    ensures |r| <= |s|
    ensures forall i :: 0 <= i < |r| ==> IsAlphanumeric(r[i])
  {
    if s == [] then []
    else (if IsAlphanumeric(s[0]) then [s[0]] else []) + Alphanumeric(s[1..])
  }

  /** Filtering distributes over concatenation, so the relative order of the
      kept characters is that of the input. */
  lemma {:induction false} AlphanumericAppend(a: string, b: string)
    ensures Alphanumeric(a + b) == Alphanumeric(a) + Alphanumeric(b)
  {
    if a != [] {
      assert (a + b)[1..] == a[1..] + b;
      AlphanumericAppend(a[1..], b);
    } else {
      assert a + b == b;
    }
  }

  /** A character survives exactly when it occurs in the input and is alphanumeric. */
  lemma {:induction false} AlphanumericMembership(s: string, c: char)
    ensures c in Alphanumeric(s) <==> c in s && IsAlphanumeric(c)
  {
    if s != [] {
      AlphanumericMembership(s[1..], c);
      assert s == [s[0]] + s[1..];
    }
  }

  /** A string that is already alphanumeric is kept whole; hence filtering is idempotent. */
  lemma {:induction false} AlphanumericKeepsAlphanumeric(s: string)
    requires forall i :: 0 <= i < |s| ==> IsAlphanumeric(s[i])
    ensures Alphanumeric(s) == s
  {
    if s != [] {
      AlphanumericKeepsAlphanumeric(s[1..]);
    }
  }

  lemma AlphanumericIdempotent(s: string)
    ensures Alphanumeric(Alphanumeric(s)) == Alphanumeric(s)
  {
    AlphanumericKeepsAlphanumeric(Alphanumeric(s));
  }

  /** `lowercased()` on ASCII text. */
  function Lowercased(s: string): (r: string)
    ensures |r| == |s|
    ensures forall i :: 0 <= i < |s| ==> r[i] == ToLower(s[i])
  {
    seq(|s|, i requires 0 <= i < |s| => ToLower(s[i]))
  }

  // ---------------------------------------------------------------------
  // base64Encoded / base64Decoded (section 4 of RFC 4648, over UTF-8)
  // ---------------------------------------------------------------------

  type Byte = Utf8.Byte

  /** The character of a six-bit value in the base64 alphabet. */
  function Base64Char(i: nat): (c: char)
    requires i < 64
  {
    if i < 26 then ('A' as int + i) as char
    else if i < 52 then ('a' as int + i - 26) as char
    else if i < 62 then ('0' as int + i - 52) as char
    else if i == 62 then '+'
    else '/'
  }

  /** The six-bit value of a base64 alphabet character. */
  function Base64Index(c: char): (r: Option<nat>)
    ensures r.Some? ==> r.value < 64 && Base64Char(r.value) == c
  {
    if 'A' <= c <= 'Z' then Some(c as int - 'A' as int)
    else if 'a' <= c <= 'z' then Some(c as int - 'a' as int + 26)
    else if '0' <= c <= '9' then Some(c as int - '0' as int + 52)
    else if c == '+' then Some(62)
    else if c == '/' then Some(63)
    else None
  }

  lemma Base64IndexOfChar(i: nat)
    requires i < 64
    ensures Base64Index(Base64Char(i)) == Some(i)
  {
  }

  /** Three bytes as four characters. */
  function EncodeQuad(b0: Byte, b1: Byte, b2: Byte): string {
    [Base64Char(b0 / 4), Base64Char((b0 % 4) * 16 + b1 / 16),
     Base64Char((b1 % 16) * 4 + b2 / 64), Base64Char(b2 % 64)]
  }

  /** `Data.base64EncodedString()`: groups of three bytes, the last group
      padded with `=` to four characters. */
  function EncodeBytes(b: seq<Byte>): (r: string)
    ensures |r| % 4 == 0
    ensures |r| == 4 * ((|b| + 2) / 3)
  {
    if |b| == 0 then ""
    else if |b| == 1 then [Base64Char(b[0] / 4), Base64Char((b[0] % 4) * 16), '=', '=']
    else if |b| == 2 then
      [Base64Char(b[0] / 4), Base64Char((b[0] % 4) * 16 + b[1] / 16), Base64Char((b[1] % 16) * 4), '=']
    else
      var q, rest := EncodeQuad(b[0], b[1], b[2]), EncodeBytes(b[3..]);
      GroupCount(|b[3..]|, |b|);
      assert |q + rest| == 4 + |rest|;
      q + rest
  }

  /** The encoding uses only the 64 alphabet characters and the padding
      character `=`. */
  lemma {:induction false} EncodeBytesAlphabet(b: seq<Byte>)
    ensures forall i :: 0 <= i < |EncodeBytes(b)| ==> EncodeBytes(b)[i] == '=' || Base64Index(EncodeBytes(b)[i]).Some?
  {
    if |b| == 1 {
      Base64IndexOfChar(b[0] / 4);
      Base64IndexOfChar((b[0] % 4) * 16);
    } else if |b| == 2 {
      Base64IndexOfChar(b[0] / 4);
      Base64IndexOfChar((b[0] % 4) * 16 + b[1] / 16);
      Base64IndexOfChar((b[1] % 16) * 4);
    } else if |b| >= 3 {
      EncodeQuadInAlphabet(b[0], b[1], b[2]);
      EncodeBytesAlphabet(b[3..]);
      var q, rest := EncodeQuad(b[0], b[1], b[2]), EncodeBytes(b[3..]);
      assert EncodeBytes(b) == q + rest;
      forall i | 0 <= i < |q + rest|
        ensures (q + rest)[i] == '=' || Base64Index((q + rest)[i]).Some?
      {
        if i >= 4 {
          assert (q + rest)[i] == rest[i - 4];
        }
      }
    }
  }

  /** One more group of three bytes is four more characters. */
  lemma GroupCount(m: nat, n: nat)
    requires n == m + 3
    ensures 4 + 4 * ((m + 2) / 3) == 4 * ((n + 2) / 3)
  {
  }

  lemma EncodeQuadInAlphabet(b0: Byte, b1: Byte, b2: Byte)
    ensures forall i :: 0 <= i < 4 ==> Base64Index(EncodeQuad(b0, b1, b2)[i]).Some?
  {
    Base64IndexOfChar(b0 / 4);
    Base64IndexOfChar((b0 % 4) * 16 + b1 / 16);
    Base64IndexOfChar((b1 % 16) * 4 + b2 / 64);
    Base64IndexOfChar(b2 % 64);
  }

  function DecodeFullQuad(q: string): Option<seq<Byte>>
    requires |q| == 4
  {
    var i0 :- Base64Index(q[0]);
    var i1 :- Base64Index(q[1]);
    var i2 :- Base64Index(q[2]);
    var i3 :- Base64Index(q[3]);
    Some([i0 * 4 + i1 / 16, (i1 % 16) * 16 + i2 / 4, (i2 % 4) * 64 + i3])
  }

  /** The last group may end in `=` or `==`. */
  function DecodeLastQuad(q: string): Option<seq<Byte>>
    requires |q| == 4
  {
    if q[2] == '=' && q[3] == '=' then
      var i0 :- Base64Index(q[0]);
      var i1 :- Base64Index(q[1]);
      Some([i0 * 4 + i1 / 16])
    else if q[3] == '=' then
      var i0 :- Base64Index(q[0]);
      var i1 :- Base64Index(q[1]);
      var i2 :- Base64Index(q[2]);
      Some([i0 * 4 + i1 / 16, (i1 % 16) * 16 + i2 / 4])
    else DecodeFullQuad(q)
  }

  /** `Data(base64Encoded:)`: nil unless the text is whole groups of four
      alphabet characters, with padding only at the very end. */
  function DecodeText(s: string): (r: Option<seq<Byte>>)
    ensures r.Some? ==> |s| % 4 == 0
    decreases |s|
  {
    if s == [] then Some([])
    else if |s| < 4 then None
    else if |s| == 4 then DecodeLastQuad(s)
    else
      var q :- DecodeFullQuad(s[..4]);
      var rest :- DecodeText(s[4..]);
      Some(q + rest)
  }

  /** The first decoded byte of a group: six bits of `b0`, then its last two. */
  lemma FirstByteSplit(b0: Byte, low: nat)
    requires low < 16
    ensures (b0 / 4) * 4 + ((b0 % 4) * 16 + low) / 16 == b0
  {
    assert ((b0 % 4) * 16 + low) / 16 == b0 % 4;
  }

  /** The second decoded byte: four bits of `b1`, then its last four. */
  lemma SecondByteSplit(b0: Byte, b1: Byte, low: nat)
    requires low < 4
    ensures (((b0 % 4) * 16 + b1 / 16) % 16) * 16 + ((b1 % 16) * 4 + low) / 4 == b1
  {
    assert ((b0 % 4) * 16 + b1 / 16) % 16 == b1 / 16;
    assert ((b1 % 16) * 4 + low) / 4 == b1 % 16;
  }

  /** The third decoded byte: two bits of `b2`, then its last six. */
  lemma ThirdByteSplit(b1: Byte, b2: Byte)
    ensures (((b1 % 16) * 4 + b2 / 64) % 4) * 64 + b2 % 64 == b2
  {
    assert ((b1 % 16) * 4 + b2 / 64) % 4 == b2 / 64;
  }

  lemma DecodeEncodeQuad(b0: Byte, b1: Byte, b2: Byte)
    ensures DecodeFullQuad(EncodeQuad(b0, b1, b2)) == Some([b0, b1, b2])
  {
    var i0, i1, i2, i3 := b0 / 4, (b0 % 4) * 16 + b1 / 16, (b1 % 16) * 4 + b2 / 64, b2 % 64;
    Base64IndexOfChar(i0);
    Base64IndexOfChar(i1);
    Base64IndexOfChar(i2);
    Base64IndexOfChar(i3);
    FirstByteSplit(b0, b1 / 16);
    SecondByteSplit(b0, b1, b2 / 64);
    ThirdByteSplit(b1, b2);
    assert DecodeFullQuad(EncodeQuad(b0, b1, b2)) == Some([i0 * 4 + i1 / 16, (i1 % 16) * 16 + i2 / 4, (i2 % 4) * 64 + i3]);
  }

  lemma DecodeEncodeOne(b0: Byte)
    ensures DecodeText(EncodeBytes([b0])) == Some([b0])
  {
    var i0, i1 := b0 / 4, (b0 % 4) * 16;
    Base64IndexOfChar(i0);
    Base64IndexOfChar(i1);
    FirstByteSplit(b0, 0);
    var s := EncodeBytes([b0]);
    assert s == [Base64Char(i0), Base64Char(i1), '=', '='];
    assert DecodeLastQuad(s) == Some([i0 * 4 + i1 / 16]);
    assert DecodeText(s) == DecodeLastQuad(s);
  }

  lemma DecodeEncodeTwo(b0: Byte, b1: Byte)
    ensures DecodeText(EncodeBytes([b0, b1])) == Some([b0, b1])
  {
    var i0, i1, i2 := b0 / 4, (b0 % 4) * 16 + b1 / 16, (b1 % 16) * 4;
    Base64IndexOfChar(i0);
    Base64IndexOfChar(i1);
    Base64IndexOfChar(i2);
    FirstByteSplit(b0, b1 / 16);
    SecondByteSplit(b0, b1, 0);
    var s := EncodeBytes([b0, b1]);
    assert s == [Base64Char(i0), Base64Char(i1), Base64Char(i2), '='];
    assert Base64Char(i2) != '=';
    assert DecodeLastQuad(s) == Some([i0 * 4 + i1 / 16, (i1 % 16) * 16 + i2 / 4]);
    assert DecodeText(s) == DecodeLastQuad(s);
  }

  lemma {:induction false} DecodeEncodeBytes(b: seq<Byte>)
    ensures DecodeText(EncodeBytes(b)) == Some(b)
    decreases |b|
  {
    if |b| == 0 {
    } else if |b| == 1 {
      assert b == [b[0]];
      DecodeEncodeOne(b[0]);
    } else if |b| == 2 {
      assert b == [b[0], b[1]];
      DecodeEncodeTwo(b[0], b[1]);
    } else {
      var tail := b[3..];
      assert b == [b[0], b[1], b[2]] + tail;
      DecodeEncodeBytes(tail);
      DecodeEncodeGroup(b[0], b[1], b[2], tail);
    }
  }

  lemma DecodeEncodeGroup(b0: Byte, b1: Byte, b2: Byte, tail: seq<Byte>)
    requires DecodeText(EncodeBytes(tail)) == Some(tail)
    ensures DecodeText(EncodeBytes([b0, b1, b2] + tail)) == Some([b0, b1, b2] + tail)
  {
    var b := [b0, b1, b2] + tail;
    assert b[3..] == tail;
    var q := EncodeQuad(b0, b1, b2);
    var rest := EncodeBytes(tail);
    var s := EncodeBytes(b);
    assert s == q + rest;
    assert s[..4] == q;
    assert s[4..] == rest;
    DecodeEncodeQuad(b0, b1, b2);
    if tail == [] {
      assert s == q && b == [b0, b1, b2];
      assert DecodeText(q) == DecodeLastQuad(q) == DecodeFullQuad(q);
    }
  }

  /** `base64Encoded()`: the UTF-8 bytes of the string, in base64. */
  function Base64Encoded(s: string): (r: string)
    ensures |r| % 4 == 0
  {
    EncodeBytes(Utf8.Encode(s))
  }

  /** `base64Decoded()`: the empty string when the text is not base64 or
      its bytes are not UTF-8. */
  function Base64Decoded(s: string): (r: string)
    ensures |s| % 4 != 0 ==> r == ""
  {
    match DecodeText(s)
    case None => ""
    case Some(bytes) =>
      match Utf8.Decode(bytes)
      case None => ""
      case Some(t) => t
  }

  lemma Base64RoundTrip(s: string)
    ensures Base64Decoded(Base64Encoded(s)) == s
  {
    DecodeEncodeBytes(Utf8.Encode(s));
    Utf8.DecodeEncode(s);
  }

  // ---------------------------------------------------------------------
  // Scanner.scanHexInt64
  // ---------------------------------------------------------------------

  const UInt64Max: nat := 0xFFFF_FFFF_FFFF_FFFF

  predicate IsHexDigit(c: char) {
    IsAsciiDigit(c) || 'a' <= c <= 'f' || 'A' <= c <= 'F'
  }

  function HexDigitValue(c: char): (v: nat)
    requires IsHexDigit(c)
    ensures v < 16
  {
    if IsAsciiDigit(c) then c as int - '0' as int
    else if 'a' <= c <= 'f' then c as int - 'a' as int + 10
    else c as int - 'A' as int + 10
  }

  /** The value of a run of hex digits, most significant first. */
  function HexValue(d: string): nat
    requires forall i :: 0 <= i < |d| ==> IsHexDigit(d[i])
  {
    if d == [] then 0 else HexValue(d[..|d| - 1]) * 16 + HexDigitValue(d[|d| - 1])
  }

  function Pow16(n: nat): nat {
    if n == 0 then 1 else 16 * Pow16(n - 1)
  }

  lemma {:induction false} HexValueBound(d: string)
    requires forall i :: 0 <= i < |d| ==> IsHexDigit(d[i])
    ensures HexValue(d) < Pow16(|d|)
  {
    if d != [] {
      HexValueBound(d[..|d| - 1]);
    }
  }

  /** The characters the scanner skips before a token: Foundation's
      `whitespacesAndNewlines`, that is the Unicode general category Z
      (the space separators, U+2028 and U+2029), the controls U+0009 to
      U+000D, and U+0085. */
  predicate IsScannerSpace(c: char) {
    || '\U{9}' <= c <= '\U{D}'
    || c == ' ' || c == '\U{85}' || c == '\U{A0}' || c == '\U{1680}'
    || '\U{2000}' <= c <= '\U{200A}'
    || c == '\U{2028}' || c == '\U{2029}' || c == '\U{202F}' || c == '\U{205F}' || c == '\U{3000}'
  }

  /** A vertical tab or an ideographic space before the digits is skipped
      like a blank. */
  lemma ScanHexSkipsUnicodeSpace()
    ensures ScanHex("\U{B}1f") == Some(0x1f)
    ensures ScanHex("\U{3000}\U{A0}ff") == Some(0xff)
  {
    var s := "\U{B}1f";
    assert SkipSpace(s, 2) == 2 && SkipSpace(s, 1) == 1 && SkipSpace(s, 0) == 1;
    assert HexRunEnd(s, 3) == 3 && HexRunEnd(s, 1) == 3;
    assert s[1..3] == "1f";
    assert HexValue("1f"[..1]) == 1;
    var t := "\U{3000}\U{A0}ff";
    assert SkipSpace(t, 2) == 2 && SkipSpace(t, 0) == 2;
    assert HexRunEnd(t, 4) == 4 && HexRunEnd(t, 2) == 4;
    assert t[2..4] == "ff";
    assert HexValue("ff"[..1]) == 15;
  }

  /** Index of the first character that is not skipped. */
  function SkipSpace(s: string, i: nat): (j: nat)
    requires i <= |s|
    ensures i <= j <= |s|
    ensures j < |s| ==> !IsScannerSpace(s[j])
    ensures forall k :: i <= k < j ==> IsScannerSpace(s[k])
    decreases |s| - i
  {
    if i < |s| && IsScannerSpace(s[i]) then SkipSpace(s, i + 1) else i
  }

  /** End of the run of hex digits starting at `i`. */
  function HexRunEnd(s: string, i: nat): (j: nat)
    requires i <= |s|
    ensures i <= j <= |s|
    ensures j < |s| ==> !IsHexDigit(s[j])
    ensures forall k :: i <= k < j ==> IsHexDigit(s[k])
    decreases |s| - i
  {
    if i < |s| && IsHexDigit(s[i]) then HexRunEnd(s, i + 1) else i
  }

  /** Where the digits start: after the skipped space and an optional `0x`
      or `0X` that is followed by a digit. */
  function DigitsStart(s: string): (j: nat)
    ensures j <= |s|
  {
    var i := SkipSpace(s, 0);
    if i + 2 < |s| && s[i] == '0' && (s[i + 1] == 'x' || s[i + 1] == 'X') && IsHexDigit(s[i + 2])
    then i + 2 else i
  }

  /** What `scanHexInt64` reports: nothing when no digit follows, otherwise
      the value of the digits, saturated at `UInt64.max`. */
  function ScanHex(s: string): (r: Option<nat>)
    ensures r.None? <==> DigitsStart(s) == |s| || !IsHexDigit(s[DigitsStart(s)])
    ensures r.Some? ==> r.value <= UInt64Max
  {
    var start := DigitsStart(s);
    var end := HexRunEnd(s, start);
    if end == start then None
    else Some(Min(HexValue(s[start..end]), UInt64Max))
  }

  function Min(a: nat, b: nat): nat {
    if a <= b then a else b
  }

  /** One step of the scanner's accumulator, which sticks at `UInt64.max`. */
  function SaturatingStep(v: nat, d: nat): nat
    requires v <= UInt64Max && d < 16
  {
    if v > (UInt64Max - d) / 16 then UInt64Max else v * 16 + d
  }

  lemma SaturatingStepIsMin(a: nat, d: nat)
    requires d < 16
    ensures SaturatingStep(Min(a, UInt64Max), d) == Min(a * 16 + d, UInt64Max)
  {
  }

  /** `Scanner(string:).scanHexInt64(&value)`: `found` is the Bool it returns and
      `value` what it leaves in the accumulator, which stays 0 on failure. */
  method ScanHexInt64(s: string) returns (found: bool, value: nat)
    ensures found <==> ScanHex(s).Some?
    ensures value == ScanHex(s).GetOr(0)
    ensures value <= UInt64Max
  {
    var start := DigitsStart(s);
    var i := start;
    var acc: nat := 0;
    while i < |s| && IsHexDigit(s[i])
      invariant start <= i <= |s|
      invariant forall k :: start <= k < i ==> IsHexDigit(s[k])
      invariant acc == Min(HexValue(s[start..i]), UInt64Max)
      decreases |s| - i
    {
      assert s[start..i + 1][..i - start] == s[start..i];
      SaturatingStepIsMin(HexValue(s[start..i]), HexDigitValue(s[i]));
      acc := SaturatingStep(acc, HexDigitValue(s[i]));
      i := i + 1;
    }
    assert i == HexRunEnd(s, start) by {
      HexRunEndIsFirstNonDigit(s, start, i);
    }
    if i == start {
      found, value := false, 0;
    } else {
      found, value := true, acc;
    }
  }

  lemma {:induction false} HexRunEndIsFirstNonDigit(s: string, i: nat, j: nat)
    requires i <= j <= |s|
    requires forall k :: i <= k < j ==> IsHexDigit(s[k])
    requires j == |s| || !IsHexDigit(s[j])
    ensures HexRunEnd(s, i) == j
    decreases j - i
  {
    if i < j {
      HexRunEndIsFirstNonDigit(s, i + 1, j);
    }
  }

  // ---------------------------------------------------------------------
  // Color(hex:) and UIColor(hex:)
  // ---------------------------------------------------------------------

  /** Byte `k` (counting from the least significant) of a value. */
  function ByteOf(v: nat, k: nat): (b: nat)
    ensures b < 256
    decreases k
  {
    if k == 0 then v % 256 else ByteOf(v / 256, k - 1)
  }

  /** SwiftUI `Color(red:green:blue:)` from three bytes; opacity is 1. */
  function RgbColor(v: nat): Color {
    Color(ByteOf(v, 2) as real / 255.0, ByteOf(v, 1) as real / 255.0, ByteOf(v, 0) as real / 255.0, 1.0)
  }

  /** `UIColor(red:green:blue:alpha:)` from four bytes, red the most significant. */
  function RgbaColor(v: nat): Color {
    Color(ByteOf(v, 3) as real / 255.0, ByteOf(v, 2) as real / 255.0,
          ByteOf(v, 1) as real / 255.0, ByteOf(v, 0) as real / 255.0)
  }

  /** `Color(hex:)`: the scan result is not checked, so text that does not
      scan gives black, and only bits 23...0 of the value are used. */
  method ColorFromHex(hex: string) returns (c: Color)
    ensures c == RgbColor(ScanHex(hex).GetOr(0))
    ensures c.alpha == 1.0
  {
    var _, value := ScanHexInt64(hex);
    c := RgbColor(value);
  }

  /** `UIColor(hex:)`: a `#`, then exactly eight characters that scan. */
  method UIColorFromHex(hex: string) returns (c: Option<Color>)
    ensures c.Some? <==> |hex| == 9 && hex[0] == '#' && ScanHex(hex[1..]).Some?
    ensures c.Some? ==> c.value == RgbaColor(ScanHex(hex[1..]).value)
  {
    if |hex| > 0 && hex[0] == '#' {
      var hexColor := hex[1..];
      if |hexColor| == 8 {
        var found, value := ScanHexInt64(hexColor);
        if found {
          return Some(RgbaColor(value));
        }
      }
    }
    return None;
  }

  /** The low three bytes of a value, and what lies above them. */
  lemma LowBytes(v: nat)
    ensures v == (v / 0x100_0000) * 0x100_0000 + ByteOf(v, 2) * 0x1_0000 + ByteOf(v, 1) * 0x100 + ByteOf(v, 0)
    ensures ByteOf(v, 3) == (v / 0x100_0000) % 256
  {
    var q1 := v / 256;
    var q2 := q1 / 256;
    var q3 := q2 / 256;
    assert ByteOf(v, 1) == q1 % 256 && ByteOf(v, 2) == q2 % 256 && ByteOf(v, 3) == q3 % 256;
    assert v == q1 * 256 + v % 256;
    assert q1 == q2 * 256 + q1 % 256;
    assert q2 == q3 * 256 + q2 % 256;
    assert v == q3 * 0x100_0000 + (q2 % 256) * 0x1_0000 + (q1 % 256) * 0x100 + v % 256;
    assert v / 0x100_0000 == q3;
  }

  /** A byte stored as a channel (`byte / 255`) comes back as the byte. */
  lemma ChannelFloor(b: nat)
    ensures ((b as real / 255.0) * 255.0).Floor == b
  {
    assert (b as real / 255.0) * 255.0 == b as real;
  }

  /** `Color(hex:)` uses exactly the low 24 bits of the scanned value: its
      channels, as bytes, give back that value modulo 2^24. */
  lemma RgbColorLowBits(v: nat)
    ensures var c := RgbColor(v);
      (c.red * 255.0).Floor * 0x1_0000 + (c.green * 255.0).Floor * 0x100 + (c.blue * 255.0).Floor
        == v % 0x100_0000
  {
    ChannelFloor(ByteOf(v, 2));
    ChannelFloor(ByteOf(v, 1));
    ChannelFloor(ByteOf(v, 0));
    LowBytes(v);
    ModOfSplit(v, v / 0x100_0000, ByteOf(v, 2) * 0x1_0000 + ByteOf(v, 1) * 0x100 + ByteOf(v, 0));
  }

  lemma ModOfSplit(v: nat, q: nat, r: nat)
    requires r < 0x100_0000 && v == q * 0x100_0000 + r
    ensures v % 0x100_0000 == r
  {
  }

  /** The four channels of `UIColor(hex:)` are the bytes of the scanned
      value, and together they give the value back. */
  lemma RgbaColorBytes(v: nat)
    requires v < 0x1_0000_0000
    ensures var c := RgbaColor(v);
      (c.red * 255.0).Floor * 0x100_0000 + (c.green * 255.0).Floor * 0x1_0000
        + (c.blue * 255.0).Floor * 0x100 + (c.alpha * 255.0).Floor == v
  {
    ChannelFloor(ByteOf(v, 3));
    ChannelFloor(ByteOf(v, 2));
    ChannelFloor(ByteOf(v, 1));
    ChannelFloor(ByteOf(v, 0));
    LowBytes(v);
    assert v / 0x100_0000 < 256;
  }

  /** For `#` followed by eight hex digits the scan succeeds with their value. */
  lemma UIColorFromEightDigits(hex: string)
    requires |hex| == 9 && hex[0] == '#'
    requires forall i :: 1 <= i < 9 ==> IsHexDigit(hex[i])
    ensures ScanHex(hex[1..]) == Some(HexValue(hex[1..]))
    ensures HexValue(hex[1..]) < 0x1_0000_0000
  {
    var d := hex[1..];
    assert !IsScannerSpace(d[0]);
    assert SkipSpace(d, 0) == 0;
    assert DigitsStart(d) == 0;
    HexRunEndIsFirstNonDigit(d, 0, 8);
    assert d[0..8] == d;
    HexValueBound(d);
    assert Pow16(8) == 0x1_0000_0000;
  }

  // ---------------------------------------------------------------------
  // UIFont.TextStyle.displayName
  // ---------------------------------------------------------------------

  function TextStyleDisplayName(l: Layout): (r: string)
    ensures l in {Title1, Title2, Title3} ==> r == "Title"
    ensures l in {Caption1, Caption2} ==> r == "Caption"
    ensures r == "Undefined Trait" <==> l.Custom?
  {
    match l
    case LargeTitle => "Large Title"
    case Title1 => "Title"
    case Title2 => "Title"
    case Title3 => "Title"
    case Headline => "Headline"
    case Subheadline => "Sub Headline"
    case Body => "Body"
    case Callout => "Callout"
    case Caption1 => "Caption"
    case Caption2 => "Caption"
    case Footnote => "Footnote"
    case Custom(_) => "Undefined Trait"
  }
}
