/**
 * The standard base64 encoding of section 4 of RFC 4648 (Go's
 * base64.StdEncoding), which peer names are built from. The encoder is the
 * one the system uses; the decoder is a reference inverse used to state what
 * an encoding means.
 */
module Base64 {
  import opened Wrappers

  type byte = x: int | 0 <= x < 256

  /** The padding character of the standard encoding. */
  const Pad: char := '='

  /** The 6-bit value a character stands for, or -1 when it is not in the alphabet. */
  function ValueOf(c: char): (v: int)
    ensures -1 <= v < 64
    ensures v == -1 <==> !(('A' <= c <= 'Z') || ('a' <= c <= 'z') || ('0' <= c <= '9') || c == '+' || c == '/')
  {
    if 'A' <= c <= 'Z' then c as int - 'A' as int
    else if 'a' <= c <= 'z' then c as int - 'a' as int + 26
    else if '0' <= c <= '9' then c as int - '0' as int + 52
    else if c == '+' then 62
    else if c == '/' then 63
    else -1
  }

  /** The character of the alphabet (table 1 of RFC 4648) for the 6-bit value v. */
  function CharOf(v: int): (c: char)
    requires 0 <= v < 64
    ensures ValueOf(c) == v
    ensures c != Pad
  {
    if v < 26 then ('A' as int + v) as char
    else if v < 52 then ('a' as int + (v - 26)) as char
    else if v < 62 then ('0' as int + (v - 52)) as char
    else if v == 62 then '+'
    else '/'
  }

  /** Three bytes as four characters: each character carries six of the 24 bits, high bits first. */
  function EncodeQuantum(b0: byte, b1: byte, b2: byte): string {
    [CharOf(b0 / 4), CharOf((b0 % 4) * 16 + b1 / 16), CharOf((b1 % 16) * 4 + b2 / 64), CharOf(b2 % 64)]
  }

  /** Two final bytes: their 16 bits fill three characters (the last with two zero bits) and one '='. */
  function EncodePair(b0: byte, b1: byte): string {
    [CharOf(b0 / 4), CharOf((b0 % 4) * 16 + b1 / 16), CharOf((b1 % 16) * 4), Pad]
  }

  /** One final byte: its 8 bits fill two characters (the second with four zero bits) and two '='. */
  function EncodeSingle(b0: byte): string {
    [CharOf(b0 / 4), CharOf((b0 % 4) * 16), Pad, Pad]
  }

  /**
   * The encoding of b: one quantum per three bytes, and a final quantum
   * padded with one '=' for two leftover bytes or two '=' for one.
   */
  function Encode(b: seq<byte>): (s: string)
    ensures |s| == 4 * ((|b| + 2) / 3)
    decreases |b|
  {
    if |b| == 0 then ""
    else if |b| == 1 then EncodeSingle(b[0])
    else if |b| == 2 then EncodePair(b[0], b[1])
    else EncodeQuantum(b[0], b[1], b[2]) + Encode(b[3..])
  }

  /**
   * Decodes one quantum of four characters; padding is accepted only in the
   * final quantum (`last`). Bits a padded quantum leaves over are ignored,
   * as Go's non-strict decoder does.
   */
  function DecodeQuantum(q: string, last: bool): (r: Option<seq<byte>>)
    requires |q| == 4
    ensures r.Some? ==> 1 <= |r.value| <= 3
    ensures r.Some? && |r.value| < 3 ==> last
  {
    var v0, v1, v2, v3 := ValueOf(q[0]), ValueOf(q[1]), ValueOf(q[2]), ValueOf(q[3]);
    if v0 < 0 || v1 < 0 then None
    else if last && q[2] == Pad && q[3] == Pad then Some([v0 * 4 + v1 / 16])
    else if v2 < 0 then None
    else if last && q[3] == Pad then Some([v0 * 4 + v1 / 16, (v1 % 16) * 16 + v2 / 4])
    else if v3 < 0 then None
    else Some([v0 * 4 + v1 / 16, (v1 % 16) * 16 + v2 / 4, (v2 % 4) * 64 + v3])
  }

  /** Decodes a whole encoding, quantum by quantum; None when s is not an encoding. */
  function Decode(s: string): (r: Option<seq<byte>>)
    decreases |s|
  {
    if |s| == 0 then Some([])
    else if |s| < 4 then None
    else
      match DecodeQuantum(s[..4], |s| == 4)
      case None => None
      case Some(q) =>
        match Decode(s[4..])
        case None => None
        case Some(rest) => Some(q + rest)
  }

  /** The 6-bit digits of three bytes give the bytes back. */
  lemma Digits(b0: byte, b1: byte, b2: byte)
    ensures (b0 / 4) * 4 + ((b0 % 4) * 16 + b1 / 16) / 16 == b0
    ensures (((b0 % 4) * 16 + b1 / 16) % 16) * 16 + ((b1 % 16) * 4 + b2 / 64) / 4 == b1
    ensures (((b1 % 16) * 4 + b2 / 64) % 4) * 64 + b2 % 64 == b2
  {
  }

  /** Each full quantum decodes back to the three bytes it encodes. */
  lemma QuantumRoundTrip(b0: byte, b1: byte, b2: byte, last: bool)
    ensures DecodeQuantum(EncodeQuantum(b0, b1, b2), last) == Some([b0, b1, b2])
  {
    Digits(b0, b1, b2);
    assert EncodeQuantum(b0, b1, b2)[3] != Pad;
  }

  /** A final pair decodes back to the two bytes it encodes. */
  lemma PairRoundTrip(b0: byte, b1: byte)
    ensures DecodeQuantum(EncodePair(b0, b1), true) == Some([b0, b1])
  {
    Digits(b0, b1, 0);
    assert EncodePair(b0, b1)[2] != Pad;
  }

  /** A final single byte decodes back to itself. */
  lemma SingleRoundTrip(b0: byte)
    ensures DecodeQuantum(EncodeSingle(b0), true) == Some([b0])
  {
    Digits(b0, 0, 0);
  }

  /** A string of one quantum decodes as that final quantum does. */
  lemma DecodeFinal(s: string, q: seq<byte>)
    requires |s| == 4 && DecodeQuantum(s, true) == Some(q)
    ensures Decode(s) == Some(q)
  {
    assert s[..4] == s && Decode(s[4..]) == Some([]);
    assert q + [] == q;
  }

  /** The encoding of a single byte decodes back to it. */
  lemma OneByteRoundTrip(b: seq<byte>)
    requires |b| == 1
    ensures Decode(Encode(b)) == Some(b)
  {
    SingleRoundTrip(b[0]);
    DecodeFinal(EncodeSingle(b[0]), [b[0]]);
    assert [b[0]] == b;
  }

  /** The encoding of two bytes decodes back to them. */
  lemma TwoByteRoundTrip(b: seq<byte>)
    requires |b| == 2
    ensures Decode(Encode(b)) == Some(b)
  {
    PairRoundTrip(b[0], b[1]);
    DecodeFinal(EncodePair(b[0], b[1]), [b[0], b[1]]);
    assert [b[0], b[1]] == b;
  }

  /** The encoding of three bytes decodes back to them. */
  lemma ThreeByteRoundTrip(b: seq<byte>)
    requires |b| == 3
    ensures Decode(Encode(b)) == Some(b)
  {
    assert Encode(b) == EncodeQuantum(b[0], b[1], b[2]) + Encode([]);
    QuantumRoundTrip(b[0], b[1], b[2], true);
    DecodeFinal(EncodeQuantum(b[0], b[1], b[2]), [b[0], b[1], b[2]]);
    assert [b[0], b[1], b[2]] == b;
  }

  /** Decoding inverts encoding, so the encoding loses no information. */
  lemma {:induction false} DecodeEncode(b: seq<byte>)
    ensures Decode(Encode(b)) == Some(b)
    decreases |b|
  {
    if |b| == 1 {
      OneByteRoundTrip(b);
    } else if |b| == 2 {
      TwoByteRoundTrip(b);
    } else if |b| == 3 {
      ThreeByteRoundTrip(b);
    } else if |b| > 3 {
      var s := Encode(b);
      FirstQuantum(b);
      assert s[4..] == Encode(b[3..]);
      DecodeEncode(b[3..]);
      assert b[..3] + b[3..] == b;
    }
  }

  /**
   * When the length leaves two bytes over (as for a 32-byte key), the
   * encoding carries exactly one '=', as its last character.
   */
  lemma {:induction false} SinglePad(b: seq<byte>)
    requires |b| % 3 == 2
    ensures Encode(b)[|Encode(b)| - 1] == Pad
    ensures forall i :: 0 <= i < |Encode(b)| - 1 ==> Encode(b)[i] != Pad
    decreases |b|
  {
    if |b| > 2 {
      SinglePad(b[3..]);
      assert Encode(b) == EncodeQuantum(b[0], b[1], b[2]) + Encode(b[3..]);
    }
  }

  /** Beyond three bytes, the first four characters encode, and decode back to, the first three bytes. */
  lemma FirstQuantum(b: seq<byte>)
    requires |b| > 3
    ensures Encode(b)[..4] == EncodeQuantum(b[0], b[1], b[2])
    ensures DecodeQuantum(Encode(b)[..4], false) == Some(b[..3])
  {
    assert Encode(b) == EncodeQuantum(b[0], b[1], b[2]) + Encode(b[3..]);
    QuantumRoundTrip(b[0], b[1], b[2], false);
    assert [b[0], b[1], b[2]] == b[..3];
  }
}
