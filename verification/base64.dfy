/**
 * Base 64 encoding as defined in section 4 of RFC 4648: every group of three
 * octets becomes four characters of the 64-character alphabet, and a final
 * group of one or two octets is completed with `=` padding. The encoder first
 * cuts the octets into 6-bit values (with 64 standing for the pad), then
 * spells each value with the alphabet. The decoder is the encoder's partner.
 */
module Base64 {
  import opened Wrappers

  type Byte = b: int | 0 <= b < 256

  /** A 6-bit value, or 64 for the pad character. */
  type Sextet = v: int | 0 <= v <= 64

  const Pad: Sextet := 64

  /** Table 1 of RFC 4648, with the pad character for 64. */
  function CharOf(v: Sextet): char {
    if v < 26 then ('A' as int + v) as char
    else if v < 52 then ('a' as int + (v - 26)) as char
    else if v < 62 then ('0' as int + (v - 52)) as char
    else if v == 62 then '+'
    else if v == 63 then '/'
    else '='
  }

  /** The value of an alphabet or pad character, or -1 for any other. */
  function ValueOf(c: char): (v: int)
    ensures -1 <= v <= 64
    ensures 0 <= v ==> CharOf(v) == c
  {
    if 'A' <= c <= 'Z' then c as int - 'A' as int
    else if 'a' <= c <= 'z' then c as int - 'a' as int + 26
    else if '0' <= c <= '9' then c as int - '0' as int + 52
    else if c == '+' then 62
    else if c == '/' then 63
    else if c == '=' then 64
    else -1
  }

  lemma ValueOfCharOf(v: Sextet)
    ensures ValueOf(CharOf(v)) == v
  {
  }

  /** The 6-bit values of the encoding of `bytes`, padding included. */
  function Sextets(bytes: seq<Byte>): (vs: seq<Sextet>)
    ensures |vs| % 4 == 0
  {
    if |bytes| == 0 then []
    else if |bytes| == 1 then
      [bytes[0] / 4, (bytes[0] % 4) * 16, Pad, Pad]
    else if |bytes| == 2 then
      [bytes[0] / 4, (bytes[0] % 4) * 16 + bytes[1] / 16, (bytes[1] % 16) * 4, Pad]
    else
      [bytes[0] / 4, (bytes[0] % 4) * 16 + bytes[1] / 16, (bytes[1] % 16) * 4 + bytes[2] / 64, bytes[2] % 64]
      + Sextets(bytes[3..])
  }

  /**
   * The pad bits of the last group are zero, as section 3.5 of RFC 4648
   * requires of an encoder: before `==` the last value ends in four zero
   * bits, before a single `=` in two.
   */
  predicate PadBitsZero(vs: seq<Sextet>) {
    var n := |vs|;
    n >= 4 ==>
      (vs[n - 2] == Pad && vs[n - 1] == Pad ==> vs[n - 3] % 16 == 0) &&
      (vs[n - 2] != Pad && vs[n - 1] == Pad ==> vs[n - 2] % 4 == 0)
  }

  /** The same requirement on the characters of a token. */
  predicate Canonical(s: string) {
    var n := |s|;
    n >= 4 ==>
      (s[n - 2] == '=' && s[n - 1] == '=' ==> ValueOf(s[n - 3]) % 16 == 0) &&
      (s[n - 2] != '=' && s[n - 1] == '=' ==> ValueOf(s[n - 2]) % 4 == 0)
  }

  function Encode(bytes: seq<Byte>): (s: string)
    ensures |s| % 4 == 0
    ensures Canonical(s)
  {
    var vs := Sextets(bytes);
    var s := seq(|vs|, i requires 0 <= i < |vs| => CharOf(vs[i]));
    SextetsPadBitsZero(bytes);
    SpeltCanonical(vs, s);
    s
  }

  /** Values with zero pad bits are spelt as a canonical token. */
  lemma SpeltCanonical(vs: seq<Sextet>, s: string)
    requires |s| == |vs| && forall i :: 0 <= i < |vs| ==> s[i] == CharOf(vs[i])
    requires PadBitsZero(vs)
    ensures Canonical(s)
  {
    if |vs| >= 4 {
      CharsOfSextets(vs, s, |vs| - 1);
      CharsOfSextets(vs, s, |vs| - 2);
      CharsOfSextets(vs, s, |vs| - 3);
    }
  }

  /** Spelling a value and reading it back; only the pad value is spelt `=`. */
  lemma CharsOfSextets(vs: seq<Sextet>, s: string, i: int)
    requires |s| == |vs| && 0 <= i < |vs|
    requires s[i] == CharOf(vs[i])
    ensures ValueOf(s[i]) == vs[i]
    ensures s[i] == '=' <==> vs[i] == Pad
  {
    ValueOfCharOf(vs[i]);
  }

  lemma {:induction false} SextetsPadBitsZero(bytes: seq<Byte>)
    ensures PadBitsZero(Sextets(bytes))
  {
    if |bytes| > 2 {
      var tail := bytes[3..];
      SextetsPadBitsZero(tail);
      var vs := Sextets(bytes);
      assert vs == Sextets(bytes[..3]) + Sextets(tail);
      if |tail| > 0 {
        var n, m := |vs|, |Sextets(tail)|;
        assert vs[n - 1] == Sextets(tail)[m - 1];
        assert vs[n - 2] == Sextets(tail)[m - 2];
        assert vs[n - 3] == Sextets(tail)[m - 3];
      }
    }
  }

  /** The octets of groups of four values; padding may only end the last group. */
  function DecodeSextets(vs: seq<Sextet>): Option<seq<Byte>>
    decreases |vs|
  {
    if |vs| == 0 then Some([])
    else if |vs| < 4 || vs[0] == Pad || vs[1] == Pad then None
    else
      var v0: int, v1: int, v2: int, v3: int := vs[0], vs[1], vs[2], vs[3];
      if |vs| == 4 && v2 == Pad && v3 == Pad then
        Some([v0 * 4 + v1 / 16])
      else if |vs| == 4 && v2 != Pad && v3 == Pad then
        Some([v0 * 4 + v1 / 16, (v1 % 16) * 16 + v2 / 4])
      else if v2 == Pad || v3 == Pad then None
      else match DecodeSextets(vs[4..])
        case None => None
        case Some(rest) =>
          Some([v0 * 4 + v1 / 16, (v1 % 16) * 16 + v2 / 4, (v2 % 4) * 64 + v3] + rest)
  }

  function Decode(s: string): Option<seq<Byte>> {
    if exists i :: 0 <= i < |s| && ValueOf(s[i]) < 0 then None
    else DecodeSextets(seq(|s|, i requires 0 <= i < |s| => ValueOf(s[i])))
  }

  lemma TripleRoundTrip(b0: Byte, b1: Byte, b2: Byte)
    ensures var v0, v1, v2, v3 := b0 / 4, (b0 % 4) * 16 + b1 / 16, (b1 % 16) * 4 + b2 / 64, b2 % 64;
      v0 * 4 + v1 / 16 == b0 && (v1 % 16) * 16 + v2 / 4 == b1 && (v2 % 4) * 64 + v3 == b2
  {
  }

  lemma {:induction false} DecodeSextetsRoundTrip(bytes: seq<Byte>)
    ensures DecodeSextets(Sextets(bytes)) == Some(bytes)
  {
    if |bytes| == 1 {
      DecodeOne(bytes[0]);
      assert bytes == [bytes[0]];
    } else if |bytes| == 2 {
      DecodeTwo(bytes[0], bytes[1]);
      assert bytes == [bytes[0], bytes[1]];
    } else if |bytes| > 2 {
      var tail := bytes[3..];
      DecodeSextetsRoundTrip(tail);
      assert bytes == [bytes[0], bytes[1], bytes[2]] + tail;
      DecodeGroup(bytes[0], bytes[1], bytes[2], tail);
    }
  }

  lemma DecodeOne(b0: Byte)
    ensures DecodeSextets(Sextets([b0])) == Some([b0])
  {
    TripleRoundTrip(b0, 0, 0);
  }

  lemma DecodeTwo(b0: Byte, b1: Byte)
    ensures DecodeSextets(Sextets([b0, b1])) == Some([b0, b1])
  {
    TripleRoundTrip(b0, b1, 0);
  }

  /** A full group of three octets decodes back, whatever follows it. */
  lemma DecodeGroup(b0: Byte, b1: Byte, b2: Byte, tail: seq<Byte>)
    requires DecodeSextets(Sextets(tail)) == Some(tail)
    ensures DecodeSextets(Sextets([b0, b1, b2] + tail)) == Some([b0, b1, b2] + tail)
  {
    var bytes := [b0, b1, b2] + tail;
    var vs := Sextets(bytes);
    assert bytes[3..] == tail;
    assert vs[4..] == Sextets(tail);
    TripleRoundTrip(b0, b1, b2);
  }

  lemma DecodeEncode(bytes: seq<Byte>)
    ensures Decode(Encode(bytes)) == Some(bytes)
  {
    var s := Encode(bytes);
    var vs := Sextets(bytes);
    forall i | 0 <= i < |s| ensures ValueOf(s[i]) == vs[i] {
      ValueOfCharOf(vs[i]);
    }
    assert seq(|s|, i requires 0 <= i < |s| => ValueOf(s[i])) == vs;
    DecodeSextetsRoundTrip(bytes);
  }

  /**
   * Decoding loses nothing: four values that decode to three octets are
   * exactly the values those octets encode to.
   */
  lemma GroupOfOctets(v0: Sextet, v1: Sextet, v2: Sextet, v3: Sextet)
    requires v0 != Pad && v1 != Pad && v2 != Pad && v3 != Pad
    ensures var b0, b1, b2 := v0 * 4 + v1 / 16, (v1 % 16) * 16 + v2 / 4, (v2 % 4) * 64 + v3;
      b0 / 4 == v0 && (b0 % 4) * 16 + b1 / 16 == v1 && (b1 % 16) * 4 + b2 / 64 == v2 && b2 % 64 == v3
  {
  }

  /** Values with zero pad bits are the encoding of whatever they decode to. */
  lemma {:induction false} SextetsOfDecoded(vs: seq<Sextet>, bytes: seq<Byte>)
    requires DecodeSextets(vs) == Some(bytes)
    requires PadBitsZero(vs)
    ensures Sextets(bytes) == vs
    decreases |vs|
  {
    if |vs| == 4 && vs[3] == Pad {
      PaddedGroup(vs, bytes);
    } else if |vs| > 0 {
      var tail := vs[4..];
      var rest := DecodedGroup(vs, bytes);
      if |tail| >= 4 {
        var n, m := |vs|, |tail|;
        assert tail[m - 1] == vs[n - 1] && tail[m - 2] == vs[n - 2] && tail[m - 3] == vs[n - 3];
      }
      SextetsOfDecoded(tail, rest);
      assert vs == vs[..4] + tail;
    }
  }

  /** The last group, when it is padded and its pad bits are zero. */
  lemma PaddedGroup(vs: seq<Sextet>, bytes: seq<Byte>)
    requires DecodeSextets(vs) == Some(bytes)
    requires |vs| == 4 && vs[3] == Pad && PadBitsZero(vs)
    ensures Sextets(bytes) == vs
  {
    var v0: int, v1: int, v2: int := vs[0], vs[1], vs[2];
    if v2 == Pad {
      assert vs == [v0, v1, Pad, Pad];
      OneOctetGroup(v0, v1, bytes);
    } else {
      assert vs == [v0, v1, v2, Pad];
      TwoOctetGroup(v0, v1, v2, bytes);
    }
  }

  /** Values that decode and do not end after one padded group: a full group, then the rest. */
  lemma DecodedGroup(vs: seq<Sextet>, bytes: seq<Byte>) returns (rest: seq<Byte>)
    requires DecodeSextets(vs) == Some(bytes)
    requires |vs| > 0 && !(|vs| == 4 && vs[3] == Pad)
    ensures |vs| >= 4
    ensures DecodeSextets(vs[4..]) == Some(rest)
    ensures Sextets(bytes) == vs[..4] + Sextets(rest)
  {
    rest := DecodeSextets(vs[4..]).value;
    var v0: int, v1: int, v2: int, v3: int := vs[0], vs[1], vs[2], vs[3];
    ThreeOctetGroup(v0, v1, v2, v3, rest);
    assert vs[..4] == [v0, v1, v2, v3];
  }

  lemma OneOctetGroup(v0: int, v1: int, bytes: seq<Byte>)
    requires 0 <= v0 < 64 && 0 <= v1 < 64 && v1 % 16 == 0
    requires DecodeSextets([v0, v1, Pad, Pad]) == Some(bytes)
    ensures Sextets(bytes) == [v0, v1, Pad, Pad]
  {
    assert bytes == [v0 * 4 + v1 / 16];
    GroupOfOctets(v0, v1, 0, 0);
  }

  lemma TwoOctetGroup(v0: int, v1: int, v2: int, bytes: seq<Byte>)
    requires 0 <= v0 < 64 && 0 <= v1 < 64 && 0 <= v2 < 64 && v2 % 4 == 0
    requires DecodeSextets([v0, v1, v2, Pad]) == Some(bytes)
    ensures Sextets(bytes) == [v0, v1, v2, Pad]
  {
    assert bytes == [v0 * 4 + v1 / 16, (v1 % 16) * 16 + v2 / 4];
    GroupOfOctets(v0, v1, v2, 0);
  }

  /** A group without padding, in front of the octets `rest`. */
  lemma ThreeOctetGroup(v0: int, v1: int, v2: int, v3: int, rest: seq<Byte>)
    requires 0 <= v0 < 64 && 0 <= v1 < 64 && 0 <= v2 < 64 && 0 <= v3 < 64
    ensures 0 <= v0 * 4 + v1 / 16 < 256 && 0 <= (v1 % 16) * 16 + v2 / 4 < 256 && 0 <= (v2 % 4) * 64 + v3 < 256
    ensures Sextets([v0 * 4 + v1 / 16, (v1 % 16) * 16 + v2 / 4, (v2 % 4) * 64 + v3] + rest) ==
      [v0, v1, v2, v3] + Sextets(rest)
  {
    var b: seq<Byte> := [v0 * 4 + v1 / 16, (v1 % 16) * 16 + v2 / 4, (v2 % 4) * 64 + v3];
    GroupOfOctets(v0, v1, v2, v3);
    assert (b + rest)[3..] == rest;
  }

  /**
   * A canonical token is the encoding of what it decodes to, so the encoder
   * is the only way to spell a sequence of octets canonically.
   */
  lemma EncodeDecode(s: string)
    requires Canonical(s) && Decode(s).Some?
    ensures Encode(Decode(s).value) == s
  {
    var vs := ValuesOfDecoded(s);
    var bytes := Decode(s).value;
    CanonicalValues(s, vs);
    SextetsOfDecoded(vs, bytes);
    SpeltValues(bytes, vs);
    var e := Encode(bytes);
    forall i | 0 <= i < |s| ensures e[i] == s[i] {
      assert e[i] == CharOf(vs[i]);
    }
  }

  /** A token that decodes is spelt with the alphabet and the pad: its values are sextets. */
  lemma ValuesOfDecoded(s: string) returns (vs: seq<Sextet>)
    requires Decode(s).Some?
    ensures |vs| == |s| && forall i :: 0 <= i < |s| ==> vs[i] == ValueOf(s[i])
    ensures DecodeSextets(vs) == Decode(s)
  {
    vs := seq(|s|, i requires 0 <= i < |s| => ValueOf(s[i]));
  }

  /** The encoder spells the values it computes, one character each. */
  lemma SpeltValues(bytes: seq<Byte>, vs: seq<Sextet>)
    requires Sextets(bytes) == vs
    ensures |Encode(bytes)| == |vs| && forall i :: 0 <= i < |vs| ==> Encode(bytes)[i] == CharOf(vs[i])
  {
  }

  /** The values of a canonical token have zero pad bits. */
  lemma CanonicalValues(s: string, vs: seq<Sextet>)
    requires Canonical(s)
    requires |vs| == |s| && forall i :: 0 <= i < |s| ==> vs[i] == ValueOf(s[i])
    ensures PadBitsZero(vs)
  {
    var n := |s|;
    if n >= 4 {
      assert vs[n - 1] == Pad <==> s[n - 1] == '=';
      assert vs[n - 2] == Pad <==> s[n - 2] == '=';
      assert vs[n - 3] == ValueOf(s[n - 3]);
    }
  }

  /** Two canonical tokens that decode to the same octets are the same token. */
  lemma CanonicalIsUnique(s: string, t: string)
    requires Canonical(s) && Canonical(t)
    requires Decode(s).Some? && Decode(s) == Decode(t)
    ensures s == t
  {
    EncodeDecode(s);
    EncodeDecode(t);
  }
}
