/**
 * `btoa`: the base 64 encoding of section 4 of RFC 4648 (alphabet `A-Z a-z 0-9 + /`,
 * `=` padding to a multiple of four characters), applied to a string whose
 * characters are read as Latin-1 bytes. A character above U+00FF makes `btoa`
 * throw an `InvalidCharacterError`.
 */
module Base64 {
  import opened Wrappers

  type Byte = b: int | 0 <= b < 256

  /** The character that encodes the 6-bit value `n` (Table 1 of RFC 4648). */
  function Sextet(n: int): (c: char)
    requires 0 <= n < 64
    ensures InAlphabet(c)
  {
    if n < 26 then ('A' as int + n) as char
    else if n < 52 then ('a' as int + (n - 26)) as char
    else if n < 62 then ('0' as int + (n - 52)) as char
    else if n == 62 then '+'
    else '/'
  }

  /** The 6-bit value a character of the alphabet stands for; `None` for any other character. */
  function SextetValue(c: char): (r: Option<int>)
    ensures r.Some? ==> 0 <= r.value < 64
  {
    if 'A' <= c <= 'Z' then Some(c as int - 'A' as int)
    else if 'a' <= c <= 'z' then Some(c as int - 'a' as int + 26)
    else if '0' <= c <= '9' then Some(c as int - '0' as int + 52)
    else if c == '+' then Some(62)
    else if c == '/' then Some(63)
    else None
  }

  lemma SextetValueOfSextet(n: int)
    requires 0 <= n < 64
    ensures SextetValue(Sextet(n)) == Some(n)
  {
  }

  predicate InAlphabet(c: char) {
    SextetValue(c).Some?
  }

  /** Three bytes as four characters. */
  function Quantum3(b0: Byte, b1: Byte, b2: Byte): string {
    [Sextet(b0 / 4), Sextet((b0 % 4) * 16 + b1 / 16), Sextet((b1 % 16) * 4 + b2 / 64), Sextet(b2 % 64)]
  }

  /** Two final bytes as three characters and one `=`. */
  function Quantum2(b0: Byte, b1: Byte): string {
    [Sextet(b0 / 4), Sextet((b0 % 4) * 16 + b1 / 16), Sextet((b1 % 16) * 4), '=']
  }

  /** One final byte as two characters and `==`. */
  function Quantum1(b0: Byte): string {
    [Sextet(b0 / 4), Sextet((b0 % 4) * 16), '=', '=']
  }

  /**
   * The encoding of a byte sequence: four characters per three bytes, the last
   * group padded with `=` when one or two bytes remain.
   */
  function Encode(bs: seq<Byte>): (s: string)
    ensures |s| == 4 * ((|bs| + 2) / 3)
    ensures forall i :: 0 <= i < |s| ==> InAlphabet(s[i]) || s[i] == '='
    decreases |bs|
  {
    if |bs| == 0 then ""
    else if |bs| == 1 then Quantum1(bs[0])
    else if |bs| == 2 then Quantum2(bs[0], bs[1])
    else Quantum3(bs[0], bs[1], bs[2]) + Encode(bs[3..])
  }

  /** Four characters without padding as three bytes. */
  function DecodeQuantum(c0: char, c1: char, c2: char, c3: char): (r: Option<seq<Byte>>)
    ensures r.Some? ==> |r.value| == 3
  {
    var v0, v1, v2, v3 := SextetValue(c0), SextetValue(c1), SextetValue(c2), SextetValue(c3);
    if v0.None? || v1.None? || v2.None? || v3.None? then None
    else Some([v0.value * 4 + v1.value / 16, (v1.value % 16) * 16 + v2.value / 4,
               (v2.value % 4) * 64 + v3.value])
  }

  /** A final group with padding (`xx==` or `xxx=`) as one or two bytes. */
  function DecodePadded(c0: char, c1: char, c2: char): (r: Option<seq<Byte>>)
  {
    var v0, v1 := SextetValue(c0), SextetValue(c1);
    if v0.None? || v1.None? then None
    else if c2 == '=' then Some([v0.value * 4 + v1.value / 16])
    else
      var v2 := SextetValue(c2);
      if v2.None? then None
      else Some([v0.value * 4 + v1.value / 16, (v1.value % 16) * 16 + v2.value / 4])
  }

  /** Decoding, the inverse of Encode: `None` for text that no byte sequence encodes to. */
  function Decode(s: string): (r: Option<seq<Byte>>)
    decreases |s|
  {
    if s == [] then Some([])
    else if |s| < 4 then None
    else if |s| == 4 && s[3] == '=' then DecodePadded(s[0], s[1], s[2])
    else match DecodeQuantum(s[0], s[1], s[2], s[3])
      case None => None
      case Some(group) =>
        match Decode(s[4..])
        case None => None
        case Some(rest) => Some(group + rest)
  }

  /** Joining the sextets of three bytes gives the bytes back. */
  lemma JoinSextets(b0: Byte, b1: Byte, b2: Byte)
    ensures (b0 / 4) * 4 + ((b0 % 4) * 16 + b1 / 16) / 16 == b0
    ensures (((b0 % 4) * 16 + b1 / 16) % 16) * 16 + ((b1 % 16) * 4 + b2 / 64) / 4 == b1
    ensures (((b1 % 16) * 4 + b2 / 64) % 4) * 64 + b2 % 64 == b2
  {
    assert ((b0 % 4) * 16 + b1 / 16) / 16 == b0 % 4;
    assert ((b0 % 4) * 16 + b1 / 16) % 16 == b1 / 16;
    assert ((b1 % 16) * 4 + b2 / 64) / 4 == b1 % 16;
    assert ((b1 % 16) * 4 + b2 / 64) % 4 == b2 / 64;
  }

  lemma DecodeQuantum1(b0: Byte)
    ensures Decode(Quantum1(b0)) == Some([b0])
  {
    SextetValueOfSextet(b0 / 4);
    SextetValueOfSextet((b0 % 4) * 16);
    JoinSextets(b0, 0, 0);
  }

  lemma DecodeQuantum2(b0: Byte, b1: Byte)
    ensures Decode(Quantum2(b0, b1)) == Some([b0, b1])
  {
    SextetValueOfSextet(b0 / 4);
    SextetValueOfSextet((b0 % 4) * 16 + b1 / 16);
    SextetValueOfSextet((b1 % 16) * 4);
    JoinSextets(b0, b1, 0);
  }

  lemma DecodeQuantum3(b0: Byte, b1: Byte, b2: Byte, t: string)
    requires Decode(t).Some?
    ensures Decode(Quantum3(b0, b1, b2) + t) == Some([b0, b1, b2] + Decode(t).value)
  {
    var c0, c1, c2, c3 := b0 / 4, (b0 % 4) * 16 + b1 / 16, (b1 % 16) * 4 + b2 / 64, b2 % 64;
    SextetValueOfSextet(c0);
    SextetValueOfSextet(c1);
    SextetValueOfSextet(c2);
    SextetValueOfSextet(c3);
    JoinSextets(b0, b1, b2);
    assert DecodeQuantum(Sextet(c0), Sextet(c1), Sextet(c2), Sextet(c3)) == Some([b0, b1, b2]);
    var s := Quantum3(b0, b1, b2) + t;
    assert s[..4] == Quantum3(b0, b1, b2) && s[4..] == t;
  }

  /** Round trip: decoding an encoding gives back the bytes. */
  lemma {:induction false} DecodeEncode(bs: seq<Byte>)
    ensures Decode(Encode(bs)) == Some(bs)
    decreases |bs|
  {
    if |bs| == 1 {
      DecodeQuantum1(bs[0]);
      assert bs == [bs[0]];
    } else if |bs| == 2 {
      DecodeQuantum2(bs[0], bs[1]);
      assert bs == [bs[0], bs[1]];
    } else if |bs| > 2 {
      DecodeEncode(bs[3..]);
      DecodeEncodeStep(bs);
    }
  }

  /** A group of three bytes in front of an encoding that decodes back. */
  lemma DecodeEncodeStep(bs: seq<Byte>)
    requires |bs| > 2 && Decode(Encode(bs[3..])) == Some(bs[3..])
    ensures Decode(Encode(bs)) == Some(bs)
  {
    var head, tail := [bs[0], bs[1], bs[2]], bs[3..];
    SplitThree(bs);
    var t := Encode(tail);
    assert Encode(bs) == Quantum3(bs[0], bs[1], bs[2]) + t;
    DecodeQuantum3(bs[0], bs[1], bs[2], t);
    assert Decode(t).value == tail;
    assert Decode(Encode(bs)) == Some(head + tail);
  }

  lemma SplitThree<T>(s: seq<T>)
    requires |s| > 2
    ensures s == [s[0], s[1], s[2]] + s[3..]
  {
  }

  /** Each character of `s` is a Latin-1 code unit, so `s` can be read as bytes. */
  predicate IsLatin1(s: string) {
    forall i :: 0 <= i < |s| ==> s[i] as int < 256
  }

  function Latin1Bytes(s: string): (bs: seq<Byte>)
    requires IsLatin1(s)
    ensures |bs| == |s|
    ensures forall i :: 0 <= i < |s| ==> bs[i] == s[i] as int
  {
    seq(|s|, i requires 0 <= i < |s| => s[i] as int)
  }

  /** `btoa(s)`: `None` stands for the `InvalidCharacterError` it throws. */
  function Btoa(s: string): (r: Option<string>)
    ensures r.Some? <==> IsLatin1(s)
  {
    if IsLatin1(s) then Some(Encode(Latin1Bytes(s))) else None
  }

  /** `atob(btoa(s))` recovers `s`: decoding the result yields the Latin-1 bytes of `s`. */
  lemma BtoaRoundTrip(s: string)
    requires IsLatin1(s)
    ensures Btoa(s).Some?
    ensures Decode(Btoa(s).value) == Some(Latin1Bytes(s))
  {
    DecodeEncode(Latin1Bytes(s));
  }
}
