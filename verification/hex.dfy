/** Lower-case hexadecimal encoding of bytes, two digits per byte, high nibble first. */
module Hex {
  import opened Basics

  const Digits: string := "0123456789abcdef"

  predicate IsHexDigit(c: char)
  {
    '0' <= c <= '9' || 'a' <= c <= 'f'
  }

  predicate IsLowerHex(s: string)
  {
    forall i :: 0 <= i < |s| ==> IsHexDigit(s[i])
  }

  /** The digit for a nibble. */
  function Digit(n: nat): (c: char)
    requires n < 16
    ensures IsHexDigit(c)
  {
    Digits[n]
  }

  /** The nibble a digit stands for. */
  function Value(c: char): (n: nat)
    requires IsHexDigit(c)
    ensures n < 16 && Digit(n) == c
  {
    if c <= '9' then (c - '0') as nat else (c - 'a') as nat + 10
  }

  /** hex.EncodeToString: each byte becomes its high and then its low nibble's digit. */
  function EncodeToString(bs: Bytes): (s: string)
    ensures |s| == 2 * |bs|
    ensures IsLowerHex(s)
  {
    if |bs| == 0 then ""
    else [Digit(bs[0] / 16), Digit(bs[0] % 16)] + EncodeToString(bs[1..])
  }

  /** The inverse of EncodeToString: None when the length is odd or a
      character is not a lower-case hex digit. */
  function Decode(s: string): (r: Option<Bytes>)
    ensures r.Some? ==> 2 * |r.value| == |s|
    decreases |s|
  {
    if |s| == 0 then Some([])
    else if |s| == 1 || !IsHexDigit(s[0]) || !IsHexDigit(s[1]) then None
    else
      match Decode(s[2..])
      case None => None
      case Some(rest) => Some([(Value(s[0]) * 16 + Value(s[1])) as byte] + rest)
  }

  lemma {:induction false} DecodeEncode(bs: Bytes)
    ensures Decode(EncodeToString(bs)) == Some(bs)
  {
    if |bs| > 0 {
      var s := EncodeToString(bs);
      var tail := EncodeToString(bs[1..]);
      assert s == [Digit(bs[0] / 16), Digit(bs[0] % 16)] + tail;
      DecodeEncode(bs[1..]);
      DecodePair(bs[0], tail, bs[1..]);
      assert [bs[0]] + bs[1..] == bs;
    }
  }

  /** Decoding a byte's two digits in front of an encoding that decodes. */
  lemma DecodePair(b: byte, tail: string, rest: Bytes)
    requires Decode(tail) == Some(rest)
    ensures Decode([Digit(b / 16), Digit(b % 16)] + tail) == Some([b] + rest)
  {
    var s := [Digit(b / 16), Digit(b % 16)] + tail;
    assert s[2..] == tail;
    ValueDigit(b / 16);
    ValueDigit(b % 16);
  }

  lemma ValueDigit(n: nat)
    requires n < 16
    ensures Value(Digit(n)) == n
  {
  }

  /** Two byte strings have the same encoding exactly when they are equal. */
  lemma EncodeInjective(a: Bytes, b: Bytes)
    ensures EncodeToString(a) == EncodeToString(b) <==> a == b
  {
    if EncodeToString(a) == EncodeToString(b) {
      DecodeEncode(a);
      DecodeEncode(b);
    }
  }
}
