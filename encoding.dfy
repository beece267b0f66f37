/** The byte encodings the service takes from Go's standard library: the `%x` verb of
    `fmt.Sprintf` on a byte slice, `base64.StdEncoding` (padded standard base64, section 4
    of RFC 4648, as Go's decoder reads it) and the `[]byte(s)` conversion (UTF-8). */
module Encoding {
  import opened Wrappers

  /** A Go `byte`. */
  type byte = x: int | 0 <= x < 256

  // ------------------------------------------------------------------
  // Hexadecimal digits
  // ------------------------------------------------------------------

  predicate IsLowerHexDigit(c: char) {
    '0' <= c <= '9' || 'a' <= c <= 'f'
  }

  /** The digits `encoding/hex` and `ObjectIDFromHex` accept: either case. */
  predicate IsHexDigit(c: char) {
    IsLowerHexDigit(c) || 'A' <= c <= 'F'
  }

  /** The lower-case digit `%x` prints for a nibble. */
  function HexDigit(d: int): (c: char)
    requires 0 <= d < 16
    ensures IsLowerHexDigit(c)
  {
    if d < 10 then ('0' as int + d) as char else ('a' as int + d - 10) as char
  }

  function HexValue(c: char): (d: int)
    requires IsHexDigit(c)
    ensures 0 <= d < 16
  {
    if '0' <= c <= '9' then c as int - '0' as int
    else if 'a' <= c <= 'f' then c as int - 'a' as int + 10
    else c as int - 'A' as int + 10
  }

  lemma HexDigitValue(d: int)
    requires 0 <= d < 16
    ensures HexValue(HexDigit(d)) == d
  {
  }

  // ------------------------------------------------------------------
  // fmt.Sprintf("%x", b)
  // ------------------------------------------------------------------

  /** `fmt.Sprintf("%x", b)` for a byte slice: two lower-case digits per byte, high nibble first. */
  function HexString(b: seq<byte>): (s: string)
    ensures |s| == 2 * |b|
  {
    if b == [] then "" else [HexDigit(b[0] / 16), HexDigit(b[0] % 16)] + HexString(b[1..])
  }

  /** Reads pairs of hex digits back into bytes; the partner of HexString. */
  function ParseHex(s: string): (r: Option<seq<byte>>)
    ensures r.Some? ==> 2 * |r.value| == |s|
  {
    if s == [] then Some([])
    else if |s| == 1 || !IsHexDigit(s[0]) || !IsHexDigit(s[1]) then None
    else match ParseHex(s[2..])
      case None => None
      case Some(rest) => Some([16 * HexValue(s[0]) + HexValue(s[1])] + rest)
  }

  /** `%x` output reads back as the bytes it was printed from. */
  lemma {:induction false} HexRoundTrip(b: seq<byte>)
    ensures ParseHex(HexString(b)) == Some(b)
  {
    if b != [] {
      var s := HexString(b);
      HexRoundTrip(b[1..]);
      HexDigitValue(b[0] / 16);
      HexDigitValue(b[0] % 16);
      assert s[2..] == HexString(b[1..]);
      assert [b[0]] + b[1..] == b;
    }
  }

  /** Distinct buffers print as distinct `%x` strings. */
  lemma HexInjective(a: seq<byte>, b: seq<byte>)
    requires HexString(a) == HexString(b)
    ensures a == b
  {
    HexRoundTrip(a);
    HexRoundTrip(b);
  }

  /** Every character of `%x` output is a lower-case hex digit, and the digits of byte k sit at
      positions 2k and 2k+1. */
  lemma {:induction false} HexStringLayout(b: seq<byte>)
    ensures forall i :: 0 <= i < |HexString(b)| ==> IsLowerHexDigit(HexString(b)[i])
    ensures forall k :: 0 <= k < |b| ==>
      HexString(b)[2 * k] == HexDigit(b[k] / 16) && HexString(b)[2 * k + 1] == HexDigit(b[k] % 16)
  {
    if b != [] {
      HexStringLayout(b[1..]);
      var s := HexString(b);
      assert s == [HexDigit(b[0] / 16), HexDigit(b[0] % 16)] + HexString(b[1..]);
      forall k | 1 <= k < |b|
        ensures s[2 * k] == HexDigit(b[k] / 16) && s[2 * k + 1] == HexDigit(b[k] % 16)
      {
        assert s[2 * k] == HexString(b[1..])[2 * (k - 1)];
        assert s[2 * k + 1] == HexString(b[1..])[2 * (k - 1) + 1];
      }
    }
  }

  // ------------------------------------------------------------------
  // base64.StdEncoding
  // ------------------------------------------------------------------

  /** The standard alphabet of section 4 of RFC 4648. */
  function Sextet(v: int): (c: char)
    requires 0 <= v < 64
  {
    if v < 26 then ('A' as int + v) as char
    else if v < 52 then ('a' as int + v - 26) as char
    else if v < 62 then ('0' as int + v - 52) as char
    else if v == 62 then '+'
    else '/'
  }

  predicate IsSextetChar(c: char) {
    'A' <= c <= 'Z' || 'a' <= c <= 'z' || '0' <= c <= '9' || c == '+' || c == '/'
  }

  function SextetValue(c: char): (v: int)
    requires IsSextetChar(c)
    ensures 0 <= v < 64
  {
    if 'A' <= c <= 'Z' then c as int - 'A' as int
    else if 'a' <= c <= 'z' then c as int - 'a' as int + 26
    else if '0' <= c <= '9' then c as int - '0' as int + 52
    else if c == '+' then 62
    else 63
  }

  lemma SextetRoundTrip(v: int)
    requires 0 <= v < 64
    ensures IsSextetChar(Sextet(v)) && SextetValue(Sextet(v)) == v && Sextet(v) != '='
  {
  }

  /** `base64.StdEncoding.EncodeToString`: each 3-byte group becomes 4 characters; a final group
      of 1 or 2 bytes is padded with `=` to 4 characters. */
  function Base64Encode(b: seq<byte>): (s: string)
    ensures |s| == 4 * ((|b| + 2) / 3)
    decreases |b|
  {
    if |b| == 0 then ""
    else if |b| == 1 then [Sextet(b[0] / 4), Sextet(b[0] % 4 * 16), '=', '=']
    else if |b| == 2 then
      [Sextet(b[0] / 4), Sextet(b[0] % 4 * 16 + b[1] / 16), Sextet(b[1] % 16 * 4), '=']
    else
      [Sextet(b[0] / 4), Sextet(b[0] % 4 * 16 + b[1] / 16), Sextet(b[1] % 16 * 4 + b[2] / 64), Sextet(b[2] % 64)]
      + Base64Encode(b[3..])
  }

  /** What Go's decoder makes of the 4-character quantum at the head of its input: three bytes
      and more to come, the last one or two bytes of a padded final quantum, or a corrupt input
      at an offset relative to the quantum. */
  datatype Quantum = Full(bytes: seq<byte>) | Final(bytes: seq<byte>) | Corrupt(offset: nat)

  /** One step of `decodeQuantum` in Go's `encoding/base64` for the padded standard encoding, with
      the decoder's default non-strict handling of the unused low bits of a padded quantum. */
  function DecodeQuantum(s: string): (q: Quantum)
    requires |s| > 0
    ensures q.Full? ==> |s| >= 4 && |q.bytes| == 3
  {
    if !IsSextetChar(s[0]) || |s| == 1 then Corrupt(0)
    else if !IsSextetChar(s[1]) then Corrupt(1)
    else if |s| == 2 then Corrupt(0)
    else
      var v0, v1 := SextetValue(s[0]), SextetValue(s[1]);
      if s[2] == '=' then
        if |s| == 3 then Corrupt(3)
        else if s[3] != '=' then Corrupt(2)
        else if |s| > 4 then Corrupt(4)
        else Final([v0 * 4 + v1 / 16])
      else if !IsSextetChar(s[2]) then Corrupt(2)
      else if |s| == 3 then Corrupt(0)
      else
        var v2 := SextetValue(s[2]);
        if s[3] == '=' then
          if |s| > 4 then Corrupt(4) else Final([v0 * 4 + v1 / 16, v1 % 16 * 16 + v2 / 4])
        else if !IsSextetChar(s[3]) then Corrupt(3)
        else Full([v0 * 4 + v1 / 16, v1 % 16 * 16 + v2 / 4, v2 % 4 * 64 + SextetValue(s[3])])
  }

  /** The outcome of `DecodeString`: the bytes, or a `CorruptInputError` at a byte offset. */
  datatype Decoded = Decoded(bytes: seq<byte>) | CorruptAt(offset: nat)

  /** `base64.StdEncoding.DecodeString` on `s`, which starts `base` characters into the input. */
  function Base64DecodeFrom(s: string, base: nat): (r: Decoded)
    ensures r.CorruptAt? ==> base <= r.offset <= base + |s|
    decreases |s|
  {
    if s == [] then Decoded([])
    else match DecodeQuantum(s)
      case Corrupt(k) => CorruptAt(base + k)
      case Final(b) => Decoded(b)
      case Full(b) =>
        match Base64DecodeFrom(s[4..], base + 4)
        case Decoded(rest) => Decoded(b + rest)
        case CorruptAt(k) => CorruptAt(k)
  }

  function Base64Decode(s: string): Decoded {
    Base64DecodeFrom(s, 0)
  }

  lemma ByteSplit(b0: byte, b1: byte, b2: byte)
    ensures (b0 / 4) * 4 + (b0 % 4 * 16 + b1 / 16) / 16 == b0
    ensures (b0 % 4 * 16 + b1 / 16) % 16 * 16 + (b1 % 16 * 4 + b2 / 64) / 4 == b1
    ensures (b1 % 16 * 4 + b2 / 64) % 4 * 64 + b2 % 64 == b2
    ensures (b0 % 4 * 16) / 16 == b0 % 4
    ensures (b0 % 4 * 16 + b1 / 16) % 16 * 16 + (b1 % 16 * 4) / 4 == b1
  {
  }

  lemma DecodeOne(b0: byte)
    ensures DecodeQuantum([Sextet(b0 / 4), Sextet(b0 % 4 * 16), '=', '=']) == Final([b0])
  {
    SextetRoundTrip(b0 / 4);
    SextetRoundTrip(b0 % 4 * 16);
    ByteSplit(b0, 0, 0);
  }

  lemma DecodeTwo(b0: byte, b1: byte)
    ensures DecodeQuantum([Sextet(b0 / 4), Sextet(b0 % 4 * 16 + b1 / 16), Sextet(b1 % 16 * 4), '='])
            == Final([b0, b1])
  {
    SextetRoundTrip(b0 / 4);
    SextetRoundTrip(b0 % 4 * 16 + b1 / 16);
    SextetRoundTrip(b1 % 16 * 4);
    ByteSplit(b0, b1, 0);
  }

  lemma DecodeThree(b0: byte, b1: byte, b2: byte, rest: string)
    ensures DecodeQuantum([Sextet(b0 / 4), Sextet(b0 % 4 * 16 + b1 / 16), Sextet(b1 % 16 * 4 + b2 / 64),
                           Sextet(b2 % 64)] + rest) == Full([b0, b1, b2])
  {
    SextetRoundTrip(b0 / 4);
    SextetRoundTrip(b0 % 4 * 16 + b1 / 16);
    SextetRoundTrip(b1 % 16 * 4 + b2 / 64);
    SextetRoundTrip(b2 % 64);
    ByteSplit(b0, b1, b2);
  }

  /** The head and tail of the encoding of three or more bytes. */
  lemma Base64EncodeSplit(b: seq<byte>)
    requires |b| >= 3
    ensures Base64Encode(b) == [Sextet(b[0] / 4), Sextet(b[0] % 4 * 16 + b[1] / 16),
                                Sextet(b[1] % 16 * 4 + b[2] / 64), Sextet(b[2] % 64)] + Base64Encode(b[3..])
  {
  }

  /** Decoding what the encoder produced gives back the bytes, wherever the text starts. */
  lemma {:induction false} Base64RoundTrip(b: seq<byte>, base: nat)
    ensures Base64DecodeFrom(Base64Encode(b), base) == Decoded(b)
    decreases |b|
  {
    if |b| == 1 {
      RoundTripOne(b, base);
    } else if |b| == 2 {
      RoundTripTwo(b, base);
    } else if |b| >= 3 {
      Base64RoundTrip(b[3..], base + 4);
      RoundTripThree(b, base);
    }
  }

  lemma RoundTripThree(b: seq<byte>, base: nat)
    requires |b| >= 3
    requires Base64DecodeFrom(Base64Encode(b[3..]), base + 4) == Decoded(b[3..])
    ensures Base64DecodeFrom(Base64Encode(b), base) == Decoded(b)
  {
    var s := Base64Encode(b);
    DecodeHead(b);
    Base64DecodeStep(s, base, b[..3]);
    assert b[..3] + b[3..] == b;
  }

  /** The first quantum of the encoding of three or more bytes decodes to the first three
      bytes, and the rest of the text is the encoding of the rest. */
  lemma DecodeHead(b: seq<byte>)
    requires |b| >= 3
    ensures |Base64Encode(b)| >= 4 && DecodeQuantum(Base64Encode(b)) == Full(b[..3])
    ensures Base64Encode(b)[4..] == Base64Encode(b[3..])
  {
    var tail := Base64Encode(b[3..]);
    var q := [Sextet(b[0] / 4), Sextet(b[0] % 4 * 16 + b[1] / 16),
              Sextet(b[1] % 16 * 4 + b[2] / 64), Sextet(b[2] % 64)];
    Base64EncodeSplit(b);
    DecodeThree(b[0], b[1], b[2], tail);
    assert b[..3] == [b[0], b[1], b[2]];
    QuantumThenTail(Base64Encode(b), q, tail, b[..3]);
  }

  lemma QuantumThenTail(s: string, q: string, tail: string, head: seq<byte>)
    requires |q| == 4 && s == q + tail && DecodeQuantum(q + tail) == Full(head)
    ensures |s| >= 4 && DecodeQuantum(s) == Full(head) && s[4..] == tail
  {
  }

  lemma RoundTripOne(b: seq<byte>, base: nat)
    requires |b| == 1
    ensures Base64DecodeFrom(Base64Encode(b), base) == Decoded(b)
  {
    DecodeOne(b[0]);
    assert b == [b[0]];
  }

  lemma RoundTripTwo(b: seq<byte>, base: nat)
    requires |b| == 2
    ensures Base64DecodeFrom(Base64Encode(b), base) == Decoded(b)
  {
    DecodeTwo(b[0], b[1]);
    assert b == [b[0], b[1]];
  }

  lemma Base64DecodeStep(s: string, base: nat, head: seq<byte>)
    requires |s| > 0 && DecodeQuantum(s) == Full(head)
    ensures Base64DecodeFrom(s, base) ==
      match Base64DecodeFrom(s[4..], base + 4)
      case Decoded(rest) => Decoded(head + rest)
      case CorruptAt(k) => CorruptAt(k)
  {
  }

  /** Every character the encoder emits is in the alphabet or is padding. */
  lemma {:induction false} Base64Alphabet(b: seq<byte>)
    ensures forall i :: 0 <= i < |Base64Encode(b)| ==>
      IsSextetChar(Base64Encode(b)[i]) || Base64Encode(b)[i] == '='
    decreases |b|
  {
    if |b| >= 3 {
      Base64Alphabet(b[3..]);
      var s := Base64Encode(b);
      forall i | 4 <= i < |s| ensures IsSextetChar(s[i]) || s[i] == '=' {
        assert s[i] == Base64Encode(b[3..])[i - 4];
      }
    }
  }

  // ------------------------------------------------------------------
  // []byte(s): UTF-8
  // ------------------------------------------------------------------

  function Utf8Char(c: char): (b: seq<byte>)
    ensures 1 <= |b| <= 4
    ensures c as int >= 0x80 ==> b[0] >= 0x80
  {
    var n := c as int;
    if n < 0x80 then [n]
    else if n < 0x800 then [0xC0 + n / 64, 0x80 + n % 64]
    else if n < 0x10000 then [0xE0 + n / 4096, 0x80 + n / 64 % 64, 0x80 + n % 64]
    else [0xF0 + n / 262144, 0x80 + n / 4096 % 64, 0x80 + n / 64 % 64, 0x80 + n % 64]
  }

  /** `[]byte(s)`: the UTF-8 encoding of a Go string. */
  function Utf8(s: string): seq<byte> {
    if s == [] then [] else Utf8Char(s[0]) + Utf8(s[1..])
  }

  /** A character outside ASCII puts a byte outside ASCII into the encoding. */
  lemma {:induction false} Utf8NonAscii(s: string, i: int)
    requires 0 <= i < |s| && s[i] as int >= 0x80
    ensures exists j :: 0 <= j < |Utf8(s)| && Utf8(s)[j] >= 0x80
  {
    var head := Utf8Char(s[0]);
    assert Utf8(s) == head + Utf8(s[1..]);
    if i == 0 {
      assert Utf8(s)[0] == head[0];
    } else {
      Utf8NonAscii(s[1..], i - 1);
      var j :| 0 <= j < |Utf8(s[1..])| && Utf8(s[1..])[j] >= 0x80;
      assert Utf8(s)[|head| + j] == Utf8(s[1..])[j];
    }
  }

  /** A string whose encoding is all ASCII bytes is an ASCII string. */
  lemma Utf8AsciiBytes(s: string)
    requires forall j :: 0 <= j < |Utf8(s)| ==> Utf8(s)[j] < 0x80
    ensures forall i :: 0 <= i < |s| ==> s[i] < 128 as char
  {
    forall i | 0 <= i < |s| ensures s[i] < 128 as char {
      if s[i] as int >= 0x80 {
        Utf8NonAscii(s, i);
      }
    }
  }

  /** An ASCII string converts to one byte per character, each the character's code. */
  lemma {:induction false} Utf8Ascii(s: string)
    requires forall i :: 0 <= i < |s| ==> s[i] < 128 as char
    ensures |Utf8(s)| == |s|
    ensures forall i :: 0 <= i < |s| ==> Utf8(s)[i] == s[i] as int
  {
    if s != [] {
      Utf8Ascii(s[1..]);
      assert Utf8Char(s[0]) == [s[0] as int];
      forall i | 1 <= i < |s| ensures Utf8(s)[i] == s[i] as int {
        assert Utf8(s)[i] == Utf8(s[1..])[i - 1];
      }
    }
  }
}
