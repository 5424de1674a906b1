/**
 * Text encodings the upload client relies on: JavaScript's decimal rendering of
 * numbers and `parseInt` of a digit string, the lower-case hexadecimal digest
 * string that SparkMD5 returns, the pairwise reading of such a string that
 * `hexToBase64` performs (`match(/\w{2}/g)` then `parseInt(pair, 16)`), and the
 * base64 encoding of section 4 of RFC 4648 (what `btoa` computes on a string of
 * byte-valued characters), with a decoder as its inverse.
 */
module Encoding {
  import opened Wrappers

  newtype byte = x: int | 0 <= x < 256

  // ---------------------------------------------------------------- decimal

  predicate IsDigit(c: char) {
    '0' <= c <= '9'
  }

  predicate AllDigits(s: string) {
    forall i :: 0 <= i < |s| ==> IsDigit(s[i])
  }

  function DigitChar(d: nat): (c: char)
    requires d < 10
    ensures IsDigit(c) && DigitValue(c) == d
  {
    (48 + d) as char
  }

  function DigitValue(c: char): (d: nat)
    requires IsDigit(c)
    ensures d < 10
  {
    c as int - 48
  }

  /** The decimal rendering of a non-negative number, as a template literal prints it. */
  function NatToString(n: nat): (s: string)
    ensures |s| > 0 && AllDigits(s)
    ensures n < 10 <==> |s| == 1
  {
    if n < 10 then [DigitChar(n)] else NatToString(n / 10) + [DigitChar(n % 10)]
  }

  /** The decimal rendering of any integer: a minus sign before the magnitude. */
  function IntToString(i: int): (s: string)
    ensures |s| > 0
    ensures i >= 0 <==> AllDigits(s)
  {
    if i < 0 then
      var s := "-" + NatToString(-i);
      assert !IsDigit(s[0]);
      s
    else NatToString(i)
  }

  /** The value of a string of decimal digits, as `parseInt` reads it. */
  function DecimalValue(s: string): nat
    requires AllDigits(s)
  {
    if s == [] then 0 else 10 * DecimalValue(s[..|s| - 1]) + DigitValue(s[|s| - 1])
  }

  /** Reading back a rendered number gives the number. */
  lemma {:induction false} DecimalValueOfNatToString(n: nat)
    ensures DecimalValue(NatToString(n)) == n
  {
    if n >= 10 {
      var s := NatToString(n / 10);
      var t := s + [DigitChar(n % 10)];
      assert t[..|t| - 1] == s;
      DecimalValueOfNatToString(n / 10);
    }
  }

  /** Rendering is injective: different numbers never print the same. */
  lemma NatToStringInjective(m: nat, n: nat)
    requires NatToString(m) == NatToString(n)
    ensures m == n
  {
    DecimalValueOfNatToString(m);
    DecimalValueOfNatToString(n);
  }

  // ------------------------------------------------------------ hexadecimal

  predicate IsHexDigit(c: char) {
    IsDigit(c) || 'a' <= c <= 'f' || 'A' <= c <= 'F'
  }

  /** The characters `\w` matches in a JavaScript regular expression. */
  predicate IsWordChar(c: char) {
    'a' <= c <= 'z' || 'A' <= c <= 'Z' || IsDigit(c) || c == '_'
  }

  function HexDigitValue(c: char): (d: nat)
    requires IsHexDigit(c)
    ensures d < 16
  {
    if IsDigit(c) then DigitValue(c) else if 'a' <= c <= 'f' then c as int - 87 else c as int - 55
  }

  function HexChar(d: nat): (c: char)
    requires d < 16
    ensures IsHexDigit(c) && IsWordChar(c) && HexDigitValue(c) == d
  {
    if d < 10 then DigitChar(d) else (87 + d) as char
  }

  /** Lower-case hexadecimal, high nibble first: the string form of an MD5 digest. */
  function Hex(b: seq<byte>): (s: string)
    ensures |s| == 2 * |b|
    ensures forall i :: 0 <= i < |s| ==> IsHexDigit(s[i]) && IsWordChar(s[i])
  {
    if b == [] then [] else [HexChar(b[0] as int / 16), HexChar(b[0] as int % 16)] + Hex(b[1..])
  }

  /**
   * `String.fromCharCode(parseInt(a + b, 16))` for two word characters: parseInt
   * reads the longest hexadecimal prefix and yields NaN when there is none, and
   * fromCharCode turns NaN into the code 0.
   */
  function PairCode(a: char, b: char): byte {
    if !IsHexDigit(a) then 0
    else if !IsHexDigit(b) then HexDigitValue(a) as byte
    else (16 * HexDigitValue(a) + HexDigitValue(b)) as byte
  }

  /**
   * The codes of the successive matches of `/\w{2}/g`: the scan takes two word
   * characters at a time and otherwise moves on by one character.
   */
  function WordPairs(s: string): seq<byte>
    decreases |s|
  {
    if |s| < 2 then []
    else if IsWordChar(s[0]) && IsWordChar(s[1]) then [PairCode(s[0], s[1])] + WordPairs(s[2..])
    else WordPairs(s[1..])
  }

  /** Reading a hexadecimal digest pairwise gives back the digest's bytes. */
  lemma {:induction false} WordPairsOfHex(b: seq<byte>)
    ensures WordPairs(Hex(b)) == b
  {
    if b != [] {
      var h := Hex(b);
      assert h[2..] == Hex(b[1..]);
      WordPairsOfHex(b[1..]);
    }
  }

  // ---------------------------------------------------------------- base64

  /** The alphabet of Table 1 in section 4 of RFC 4648. */
  function Base64Char(i: nat): (c: char)
    requires i < 64
    ensures c != '='
  {
    if i < 26 then (65 + i) as char
    else if i < 52 then (71 + i) as char
    else if i < 62 then (i - 4) as char
    else if i == 62 then '+'
    else '/'
  }

  /** The position of a character in the alphabet, or 64 for any other character. */
  function Base64Index(c: char): (i: nat)
    ensures i <= 64
  {
    if 'A' <= c <= 'Z' then c as int - 65
    else if 'a' <= c <= 'z' then c as int - 71
    else if '0' <= c <= '9' then c as int + 4
    else if c == '+' then 62
    else if c == '/' then 63
    else 64
  }

  /** Base64 with `=` padding (RFC 4648, section 4), three bytes to four characters. */
  function Base64Encode(b: seq<byte>): (s: string)
    ensures |s| == 4 * ((|b| + 2) / 3)
    decreases |b|
  {
    if |b| == 0 then []
    else if |b| == 1 then
      var x := b[0] as int;
      [Base64Char(x / 4), Base64Char(x % 4 * 16), '=', '=']
    else if |b| == 2 then
      var x, y := b[0] as int, b[1] as int;
      [Base64Char(x / 4), Base64Char(x % 4 * 16 + y / 16), Base64Char(y % 16 * 4), '=']
    else
      var x, y, z := b[0] as int, b[1] as int, b[2] as int;
      [Base64Char(x / 4), Base64Char(x % 4 * 16 + y / 16), Base64Char(y % 16 * 4 + z / 64), Base64Char(z % 64)]
        + Base64Encode(b[3..])
  }

  /** Base64 decoding of padded input; None for a string that is not an encoding. */
  function Base64Decode(s: string): Option<seq<byte>>
    decreases |s|
  {
    if |s| == 0 then Some([])
    else if |s| < 4 then None
    else
      var a, b, c, d := Base64Index(s[0]), Base64Index(s[1]), Base64Index(s[2]), Base64Index(s[3]);
      if a == 64 || b == 64 then None
      else if |s| == 4 && s[2] == '=' && s[3] == '=' then Some([(a * 4 + b / 16) as byte])
      else if c == 64 then None
      else if |s| == 4 && s[3] == '=' then Some([(a * 4 + b / 16) as byte, (b % 16 * 16 + c / 4) as byte])
      else if d == 64 then None
      else
        match Base64Decode(s[4..])
        case None => None
        case Some(rest) =>
          Some([(a * 4 + b / 16) as byte, (b % 16 * 16 + c / 4) as byte, (c % 4 * 64 + d) as byte] + rest)
  }

  lemma Base64IndexOfChar(i: nat)
    requires i < 64
    ensures Base64Index(Base64Char(i)) == i
  {
  }

  /** The bit regrouping of one group: 8+8+8 bits into 6+6+6+6 and back. */
  lemma RegroupBits(x: int, y: int, z: int)
    requires 0 <= x < 256 && 0 <= y < 256 && 0 <= z < 256
    ensures x / 4 * 4 + (x % 4 * 16 + y / 16) / 16 == x
    ensures (x % 4 * 16 + y / 16) % 16 * 16 + (y % 16 * 4 + z / 64) / 4 == y
    ensures (y % 16 * 4 + z / 64) % 4 * 64 + z % 64 == z
    ensures (x % 4 * 16) / 16 == x % 4
    ensures (x % 4 * 16 + y / 16) % 16 * 16 + (y % 16 * 4) / 4 == y
  {
  }

  lemma DecodeOneByte(x: byte)
    ensures Base64Decode(Base64Encode([x])) == Some([x])
  {
    var v := x as int;
    RegroupBits(v, 0, 0);
    Base64IndexOfChar(v / 4);
    Base64IndexOfChar(v % 4 * 16);
  }

  lemma DecodeTwoBytes(x: byte, y: byte)
    ensures Base64Decode(Base64Encode([x, y])) == Some([x, y])
  {
    var v, w := x as int, y as int;
    var s := Base64Encode([x, y]);
    RegroupBits(v, w, 0);
    Base64IndexOfChar(v / 4);
    Base64IndexOfChar(v % 4 * 16 + w / 16);
    Base64IndexOfChar(w % 16 * 4);
    assert Base64Index(s[0]) == v / 4;
    assert Base64Index(s[1]) == v % 4 * 16 + w / 16;
    assert Base64Index(s[2]) == w % 16 * 4;
  }

  /** Decoding a group of four alphabet characters, whatever follows it. */
  lemma DecodeFullGroup(i0: nat, i1: nat, i2: nat, i3: nat, r: string)
    requires i0 < 64 && i1 < 64 && i2 < 64 && i3 < 64
    requires Base64Decode(r).Some?
    ensures Base64Decode([Base64Char(i0), Base64Char(i1), Base64Char(i2), Base64Char(i3)] + r)
         == Some([(i0 * 4 + i1 / 16) as byte, (i1 % 16 * 16 + i2 / 4) as byte, (i2 % 4 * 64 + i3) as byte]
                 + Base64Decode(r).value)
  {
    var s := [Base64Char(i0), Base64Char(i1), Base64Char(i2), Base64Char(i3)] + r;
    Base64IndexOfChar(i0);
    Base64IndexOfChar(i1);
    Base64IndexOfChar(i2);
    Base64IndexOfChar(i3);
    assert s[4..] == r;
  }

  /** Encoding three leading bytes yields one group of four characters before the rest. */
  lemma EncodeGroup(x: byte, y: byte, z: byte, rest: seq<byte>)
    ensures var v, w, u := x as int, y as int, z as int;
      Base64Encode([x, y, z] + rest)
      == [Base64Char(v / 4), Base64Char(v % 4 * 16 + w / 16), Base64Char(w % 16 * 4 + u / 64), Base64Char(u % 64)]
         + Base64Encode(rest)
  {
    assert ([x, y, z] + rest)[3..] == rest;
  }

  lemma DecodeGroup(x: byte, y: byte, z: byte, rest: seq<byte>)
    requires Base64Decode(Base64Encode(rest)) == Some(rest)
    ensures Base64Decode(Base64Encode([x, y, z] + rest)) == Some([x, y, z] + rest)
  {
    var v, w, u := x as int, y as int, z as int;
    var i0, i1, i2, i3 := v / 4, v % 4 * 16 + w / 16, w % 16 * 4 + u / 64, u % 64;
    EncodeGroup(x, y, z, rest);
    RegroupBits(v, w, u);
    DecodeFullGroup(i0, i1, i2, i3, Base64Encode(rest));
    assert [(i0 * 4 + i1 / 16) as byte, (i1 % 16 * 16 + i2 / 4) as byte, (i2 % 4 * 64 + i3) as byte] == [x, y, z];
  }

  /** Decoding undoes encoding. */
  lemma {:induction false} Base64RoundTrip(b: seq<byte>)
    ensures Base64Decode(Base64Encode(b)) == Some(b)
    decreases |b|
  {
    if |b| == 1 {
      assert b == [b[0]];
      DecodeOneByte(b[0]);
    } else if |b| == 2 {
      assert b == [b[0], b[1]];
      DecodeTwoBytes(b[0], b[1]);
    } else if |b| >= 3 {
      var rest := b[3..];
      assert b == [b[0], b[1], b[2]] + rest;
      Base64RoundTrip(rest);
      DecodeGroup(b[0], b[1], b[2], rest);
    }
  }
}
