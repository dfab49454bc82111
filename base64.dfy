/** The unpadded URL-safe base64 encoding of section 5 of RFC 4648 (Go's
    `base64.RawURLEncoding`), which job tokens are made of, together with a
    decoder that inverts it. */
module Base64Url {
  import opened Wrappers

  newtype byte = x: int | 0 <= x < 256

  /** The character for a 6-bit value: A-Z, a-z, 0-9, then '-' and '_'. */
  function Digit(v: nat): char
    requires v < 64
  {
    if v < 26 then ('A' as int + v) as char
    else if v < 52 then ('a' as int + (v - 26)) as char
    else if v < 62 then ('0' as int + (v - 52)) as char
    else if v == 62 then '-'
    else '_'
  }

  /** The 6-bit value of an alphabet character. */
  function DigitValue(c: char): (r: Option<nat>)
    ensures r.Some? ==> r.value < 64 && Digit(r.value) == c
  {
    if 'A' <= c <= 'Z' then Some(c as int - 'A' as int)
    else if 'a' <= c <= 'z' then Some(c as int - 'a' as int + 26)
    else if '0' <= c <= '9' then Some(c as int - '0' as int + 52)
    else if c == '-' then Some(62)
    else if c == '_' then Some(63)
    else None
  }

  /** A character of the token pattern `[A-Za-z0-9\-\_]` of server/server.go. */
  predicate IsTokenChar(c: char) {
    'A' <= c <= 'Z' || 'a' <= c <= 'z' || '0' <= c <= '9' || c == '-' || c == '_'
  }

  lemma DigitIsTokenChar(v: nat)
    requires v < 64
    ensures IsTokenChar(Digit(v)) && DigitValue(Digit(v)) == Some(v)
  {
  }

  /** Three bytes as four characters. */
  function Quad(b0: byte, b1: byte, b2: byte): string {
    var x, y, z := b0 as int, b1 as int, b2 as int;
    [Digit(x / 4), Digit(x % 4 * 16 + y / 16), Digit(y % 16 * 4 + z / 64), Digit(z % 64)]
  }

  /** The encoding: four characters per three bytes; a last group of one or two
      bytes gives two or three characters, and no padding is written. */
  function Encode(bs: seq<byte>): (s: string)
    ensures |s| == (4 * |bs| + 2) / 3
    ensures forall k :: 0 <= k < |s| ==> IsTokenChar(s[k])
  {
    if |bs| >= 3 then
      var q := Quad(bs[0], bs[1], bs[2]);
      DigitIsTokenChar(bs[0] as int / 4);
      DigitIsTokenChar(bs[0] as int % 4 * 16 + bs[1] as int / 16);
      DigitIsTokenChar(bs[1] as int % 16 * 4 + bs[2] as int / 64);
      DigitIsTokenChar(bs[2] as int % 64);
      q + Encode(bs[3..])
    else if |bs| == 2 then
      var x, y := bs[0] as int, bs[1] as int;
      DigitIsTokenChar(x / 4);
      DigitIsTokenChar(x % 4 * 16 + y / 16);
      DigitIsTokenChar(y % 16 * 4);
      [Digit(x / 4), Digit(x % 4 * 16 + y / 16), Digit(y % 16 * 4)]
    else if |bs| == 1 then
      var x := bs[0] as int;
      DigitIsTokenChar(x / 4);
      DigitIsTokenChar(x % 4 * 16);
      [Digit(x / 4), Digit(x % 4 * 16)]
    else []
  }

  /** The bytes of four, three or two characters; the bits below the last byte
      are ignored, as a non-strict decoder does. */
  function DecodeGroup(cs: string): Option<seq<byte>>
    requires 2 <= |cs| <= 4
  {
    var v0, v1 := DigitValue(cs[0]), DigitValue(cs[1]);
    var v2 := if |cs| > 2 then DigitValue(cs[2]) else Some(0);
    var v3 := if |cs| > 3 then DigitValue(cs[3]) else Some(0);
    if v0.None? || v1.None? || v2.None? || v3.None? then None
    else
      var a, b, c, d := v0.value, v1.value, v2.value, v3.value;
      var b0 := (a * 4 + b / 16) as byte;
      var b1 := (b % 16 * 16 + c / 4) as byte;
      var b2 := (c % 4 * 64 + d) as byte;
      Some([b0, b1, b2][..|cs| - 1])
  }

  /** The inverse of Encode: None for a character outside the alphabet or a
      single character left over at the end. */
  function Decode(s: string): Option<seq<byte>> {
    if s == [] then Some([])
    else if |s| == 1 then None
    else if |s| < 4 then DecodeGroup(s)
    else
      match DecodeGroup(s[..4])
      case None => None
      case Some(head) =>
        match Decode(s[4..])
        case None => None
        case Some(tail) => Some(head + tail)
  }

  /** The bit arithmetic behind a group: splitting three bytes into four 6-bit
      values and joining them again gives the bytes back. */
  lemma Regroup(x: int, y: int, z: int)
    requires 0 <= x < 256 && 0 <= y < 256 && 0 <= z < 256
    ensures var b, c := x % 4 * 16 + y / 16, y % 16 * 4 + z / 64;
      x / 4 * 4 + b / 16 == x && b % 16 * 16 + c / 4 == y && c % 4 * 64 + z % 64 == z
  {
    var b, c := x % 4 * 16 + y / 16, y % 16 * 4 + z / 64;
    assert 0 <= y / 16 < 16;
    assert b / 16 == x % 4 && b % 16 == y / 16;
    assert 0 <= z / 64 < 4;
    assert c / 4 == y % 16 && c % 4 == z / 64;
  }

  lemma QuadRoundTrip(b0: byte, b1: byte, b2: byte)
    ensures DecodeGroup(Quad(b0, b1, b2)) == Some([b0, b1, b2])
  {
    var x, y, z := b0 as int, b1 as int, b2 as int;
    Regroup(x, y, z);
    DigitIsTokenChar(x / 4);
    DigitIsTokenChar(x % 4 * 16 + y / 16);
    DigitIsTokenChar(y % 16 * 4 + z / 64);
    DigitIsTokenChar(z % 64);
    var q := Quad(b0, b1, b2);
    assert DigitValue(q[0]) == Some(x / 4);
    assert DigitValue(q[1]) == Some(x % 4 * 16 + y / 16);
    assert DigitValue(q[2]) == Some(y % 16 * 4 + z / 64);
    assert DigitValue(q[3]) == Some(z % 64);
    assert [b0, b1, b2][..3] == [b0, b1, b2];
  }

  lemma DecodeTriple(a: nat, b: nat, c: nat)
    requires a < 64 && b < 64 && c < 64
    ensures Decode([Digit(a), Digit(b), Digit(c)])
            == Some([(a * 4 + b / 16) as byte, (b % 16 * 16 + c / 4) as byte])
  {
    DigitIsTokenChar(a);
    DigitIsTokenChar(b);
    DigitIsTokenChar(c);
    var t := [(a * 4 + b / 16) as byte, (b % 16 * 16 + c / 4) as byte, (c % 4 * 64) as byte];
    assert t[..2] == [t[0], t[1]];
  }

  /** A last group of two bytes. */
  lemma PairRoundTrip(b0: byte, b1: byte)
    ensures Decode(Encode([b0, b1])) == Some([b0, b1])
  {
    var x, y := b0 as int, b1 as int;
    var a, b, c := x / 4, x % 4 * 16 + y / 16, y % 16 * 4;
    assert Encode([b0, b1]) == [Digit(a), Digit(b), Digit(c)];
    Regroup(x, y, 0);
    assert (a * 4 + b / 16) as byte == b0 && (b % 16 * 16 + c / 4) as byte == b1;
    DecodeTriple(a, b, c);
  }

  /** A last group of one byte. */
  lemma SingleRoundTrip(b0: byte)
    ensures Decode(Encode([b0])) == Some([b0])
  {
    var x := b0 as int;
    var a, b := x / 4, x % 4 * 16;
    assert Encode([b0]) == [Digit(a), Digit(b)];
    Regroup(x, 0, 0);
    assert (a * 4 + b / 16) as byte == b0;
    DecodePair(a, b);
  }

  lemma DecodePair(a: nat, b: nat)
    requires a < 64 && b < 64
    ensures Decode([Digit(a), Digit(b)]) == Some([(a * 4 + b / 16) as byte])
  {
    DigitIsTokenChar(a);
    DigitIsTokenChar(b);
    var t := [(a * 4 + b / 16) as byte, (b % 16 * 16) as byte, 0 as byte];
    assert t[..1] == [t[0]];
  }

  /** A full group in front decodes on its own. */
  lemma DecodeAfterQuad(q: string, rest: string)
    requires |q| == 4
    ensures Decode(q + rest) == match DecodeGroup(q)
                                case None => None
                                case Some(head) =>
                                  match Decode(rest)
                                  case None => None
                                  case Some(tail) => Some(head + tail)
  {
    var s := q + rest;
    assert s[..4] == q;
    assert s[4..] == rest;
  }

  /** The step of the round trip: a full group in front, then the rest. */
  lemma QuadStep(bs: seq<byte>)
    requires |bs| >= 3 && Decode(Encode(bs[3..])) == Some(bs[3..])
    ensures Decode(Encode(bs)) == Some(bs)
  {
    var q := Quad(bs[0], bs[1], bs[2]);
    var rest := Encode(bs[3..]);
    EncodeFront(bs);
    QuadRoundTrip(bs[0], bs[1], bs[2]);
    DecodeAfterQuad(q, rest);
    SplitFront(bs);
  }

  lemma EncodeFront(bs: seq<byte>)
    requires |bs| >= 3
    ensures Encode(bs) == Quad(bs[0], bs[1], bs[2]) + Encode(bs[3..])
  {
  }

  lemma SplitFront(bs: seq<byte>)
    requires |bs| >= 3
    ensures bs == [bs[0], bs[1], bs[2]] + bs[3..]
  {
  }

  /** Decoding an encoding gives the bytes back. */
  lemma {:induction false} DecodeEncode(bs: seq<byte>)
    ensures Decode(Encode(bs)) == Some(bs)
    decreases |bs|
  {
    if |bs| >= 3 {
      DecodeEncode(bs[3..]);
      QuadStep(bs);
    } else if |bs| == 2 {
      PairRoundTrip(bs[0], bs[1]);
      assert bs == [bs[0], bs[1]];
    } else if |bs| == 1 {
      SingleRoundTrip(bs[0]);
      assert bs == [bs[0]];
    }
  }

  /** Different byte strings have different encodings. */
  lemma EncodeInjective(a: seq<byte>, b: seq<byte>)
    requires Encode(a) == Encode(b)
    ensures a == b
  {
    DecodeEncode(a);
    DecodeEncode(b);
  }

  /** model/job.go randToken: nine random bytes, encoded. The bytes are a
      parameter because they come from the operating system's random source. */
  function RandToken(random: seq<byte>): (t: string)
    requires |random| == 9
    ensures |t| == 12 && forall k :: 0 <= k < |t| ==> IsTokenChar(t[k])
  {
    Encode(random)
  }

  /** A token determines the random bytes it was made from. */
  lemma RandTokenDecodes(random: seq<byte>)
    requires |random| == 9
    ensures Decode(RandToken(random)) == Some(random)
  {
    DecodeEncode(random);
  }
}
