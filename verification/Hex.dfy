/** `toHexStr` and `toHex`: bytes as hexadecimal digits and back. */
module Hex {
  import opened Words

  type nibble = x: int | 0 <= x < 16

  const HEX_DIGITS := "0123456789abcdef"

  function Digit(n: nibble): char {
    HEX_DIGITS[n]
  }

  /** The value of a digit; any other character counts as 0. */
  function Value(ch: char): nibble {
    if 'a' <= ch <= 'f' then (ch - 'a') as int + 10
    else if 'A' <= ch <= 'F' then (ch - 'A') as int + 10
    else if '0' <= ch <= '9' then (ch - '0') as int
    else 0
  }

  /** Two digits a byte, high one first. */
  function Encoded(bytes: seq<u8>): (h: string)
    ensures |h| == 2 * |bytes|
  {
    if bytes == [] then ""
    else
      var n := |bytes| - 1;
      Encoded(bytes[..n]) + [Digit(bytes[n] / 16), Digit(bytes[n] % 16)]
  }

  /** Digits are paired from the right; a first digit without partner is a byte of its own. */
  function Decoded(h: string): (bytes: seq<u8>)
    ensures |bytes| == (|h| + 1) / 2
  {
    if h == "" then []
    else if |h| == 1 then [Value(h[0])]
    else Decoded(h[..|h| - 2]) + [16 * Value(h[|h| - 2]) + Value(h[|h| - 1])]
  }

  function Lower(ch: char): char {
    Digit(Value(ch))
  }

  /** Lower-case digits, '0' for what is no digit, and a leading '0' for an odd length. */
  function Normal(h: string): (n: string)
    ensures |n| == |h| + |h| % 2
  {
    (if |h| % 2 == 1 then "0" else "") + LowerAll(h)
  }

  function LowerAll(h: string): (n: string)
    ensures |n| == |h|
    ensures forall i :: 0 <= i < |h| ==> n[i] == Lower(h[i])
  {
    seq(|h|, i requires 0 <= i < |h| => Lower(h[i]))
  }

  lemma NormalSnoc(h: string, high: char, low: char)
    ensures Normal(h + [high, low]) == Normal(h) + [Lower(high), Lower(low)]
  {
    var g := h + [high, low];
    assert LowerAll(g) == LowerAll(h) + [Lower(high), Lower(low)];
    assert |g| % 2 == |h| % 2;
  }

  predicate IsHexDigit(ch: char) {
    '0' <= ch <= '9' || 'a' <= ch <= 'f' || 'A' <= ch <= 'F'
  }

  lemma ValueOfDigit(n: nibble)
    ensures Value(Digit(n)) == n
  {
  }

  /** The digits stand for their values; a letter does so in both cases. */
  lemma DigitMeaning(d: nat)
    ensures d < 10 ==> Digit(d) == '0' + d as char && Value('0' + d as char) == d
    ensures d < 6 ==> Digit(10 + d) == 'a' + d as char && Value('a' + d as char) == Value('A' + d as char) == 10 + d
  {
  }

  /** Whatever is no digit counts as 0. */
  lemma NoDigit(ch: char)
    requires !IsHexDigit(ch)
    ensures Value(ch) == 0
  {
  }

  /** A digit keeps its value and becomes lower-case. */
  lemma LowerFacts(ch: char)
    requires IsHexDigit(ch)
    ensures Lower(ch) == if 'A' <= ch <= 'F' then ch - 'A' + 'a' else ch
  {
  }

  lemma EncodedSnoc(bytes: seq<u8>, x: u8)
    ensures Encoded(bytes + [x]) == Encoded(bytes) + [Digit(x / 16), Digit(x % 16)]
  {
    assert (bytes + [x])[..|bytes|] == bytes;
  }

  lemma DecodedSnoc(h: string, high: char, low: char)
    ensures Decoded(h + [high, low]) == Decoded(h) + [16 * Value(high) + Value(low)]
  {
    var g := h + [high, low];
    assert g[..|h|] == h && g[|g| - 2] == high && g[|g| - 1] == low;
  }

  /** Each byte has two digits, the high one first. */
  lemma EncodedByte(high: nibble, low: nibble)
    ensures Encoded([16 * high + low]) == [Digit(high), Digit(low)]
  {
    hide *;
    DigitsOfByte(high, low);
    OneByte(16 * high + low);
  }

  lemma OneByte(x: u8)
    ensures Encoded([x]) == [Digit(x / 16), Digit(x % 16)]
  {
    assert Encoded([]) == "";
    hide *;
    EncodedSnoc([], x);
    assert [] + [x] == [x] && "" + [Digit(x / 16), Digit(x % 16)] == [Digit(x / 16), Digit(x % 16)];
  }

  /** The bytes keep their order. */
  lemma {:induction false} EncodedJoined(a: seq<u8>, b: seq<u8>)
    ensures Encoded(a + b) == Encoded(a) + Encoded(b)
    decreases |b|
  {
    if b == [] {
      assert a + b == a && Encoded(a) + Encoded(b) == Encoded(a);
    } else {
      hide *;
      var init, x := b[..|b| - 1], b[|b| - 1];
      var digits := [Digit(x / 16), Digit(x % 16)];
      assert b == init + [x] && a + b == (a + init) + [x];
      assert Encoded(a + b) == Encoded(a + init) + digits by {
        EncodedSnoc(a + init, x);
      }
      assert Encoded(b) == Encoded(init) + digits by {
        EncodedSnoc(init, x);
      }
      EncodedJoined(a, init);
      assert Encoded(a) + Encoded(init) + digits == Encoded(a) + (Encoded(init) + digits);
    }
  }

  lemma {:induction false} DecodeEncoded(bytes: seq<u8>)
    ensures Decoded(Encoded(bytes)) == bytes
  {
    hide Value, Digit;
    if bytes != [] {
      var init, x := bytes[..|bytes| - 1], bytes[|bytes| - 1];
      assert bytes == init + [x];
      DecodeEncoded(init);
      EncodedSnoc(init, x);
      DecodedSnoc(Encoded(init), Digit(x / 16), Digit(x % 16));
      ValueOfDigit(x / 16);
      ValueOfDigit(x % 16);
    }
  }

  lemma DigitsOfByte(high: nibble, low: nibble)
    ensures (16 * high + low) / 16 == high && (16 * high + low) % 16 == low
  {
  }

  lemma {:induction false} EncodeDecoded(h: string)
    ensures Encoded(Decoded(h)) == Normal(h)
  {
    hide Value, Digit, Normal;
    if h == "" {
      NormalShort(h);
    } else if |h| == 1 {
      assert Decoded(h) == [] + [Value(h[0])];
      EncodedSnoc([], Value(h[0]));
      ZeroDigit();
      NormalShort(h);
    } else {
      var init, high, low := h[..|h| - 2], h[|h| - 2], h[|h| - 1];
      assert h == init + [high, low];
      EncodeDecoded(init);
      DecodedSnoc(init, high, low);
      EncodedSnoc(Decoded(init), 16 * Value(high) + Value(low));
      DigitsOfByte(Value(high), Value(low));
      NormalSnoc(init, high, low);
    }
  }

  lemma NormalShort(h: string)
    ensures h == "" ==> Normal(h) == ""
    ensures |h| == 1 ==> Normal(h) == ['0', Lower(h[0])]
  {
  }

  lemma ZeroDigit()
    ensures Digit(0) == '0'
  {
  }

  method ToHexStr(bytes: seq<u8>) returns (out: string)
    ensures out == Encoded(bytes)
  {
    out := "";
    var i := 0;
    while i < |bytes|
      invariant 0 <= i <= |bytes|
      invariant out == Encoded(bytes[..i])
    {
      var ch := bytes[i];
      assert bytes[..i + 1][..i] == bytes[..i];
      ghost var before := out;
      out := out + [HEX_DIGITS[ch / 16]];
      out := out + [HEX_DIGITS[ch % 16]];
      assert out == before + [HEX_DIGITS[ch / 16], HEX_DIGITS[ch % 16]];
      i := i + 1;
    }
    assert bytes[..i] == bytes;
  }

  method ToHex(h: string) returns (bytes: seq<u8>)
    ensures bytes == Decoded(h)
  {
    hide Value, Decoded;
    DecodedFirst(h);
    var highByteDone := |h| % 2 == 1;
    var b: u8 := 0;
    bytes := [];
    var i := 0;
    while i < |h|
      invariant 0 <= i <= |h|
      invariant highByteDone <==> (|h| - i) % 2 == 1
      invariant !highByteDone ==> bytes == Decoded(h[..i])
      invariant highByteDone && i == 0 ==> b == 0 && bytes == []
      invariant highByteDone && i > 0 ==> b == 16 * Value(h[i - 1]) && bytes == Decoded(h[..i - 1])
    {
      var ch := h[i];
      var digit: int := DigitValue(ch);
      if highByteDone {
        b := b + digit; // the low half of b is zero, so "or" is a sum
        bytes := bytes + [b];
        if i > 0 {
          DecodedPair(h, i);
        }
      } else {
        b := digit * 16;
      }
      highByteDone := !highByteDone;
      i := i + 1;
    }
    assert h[..i] == h;
  }

  lemma DecodedFirst(h: string)
    ensures Decoded(h[..0]) == []
    ensures |h| > 0 ==> Decoded(h[..1]) == [Value(h[0])]
  {
  }

  lemma DecodedPair(h: string, i: nat)
    requires 0 < i < |h|
    ensures Decoded(h[..i + 1]) == Decoded(h[..i - 1]) + [16 * Value(h[i - 1]) + Value(h[i])]
  {
    assert h[..i + 1][..i - 1] == h[..i - 1];
  }

  /** The branches of the loop in `toHex` that read one digit. */
  method DigitValue(ch: char) returns (digit: nibble)
    ensures digit == Value(ch)
  {
    digit := 0;
    if 'a' <= ch <= 'f' {
      digit := (ch - 'a') as int + 10;
    } else if 'A' <= ch <= 'F' {
      digit := (ch - 'A') as int + 10;
    } else if '0' <= ch <= '9' {
      digit := (ch - '0') as int;
    }
  }
}
