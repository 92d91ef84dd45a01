/**
 * The standard base64 encoding of section 4 of RFC 4648 (Go's
 * `base64.StdEncoding`): the 64-character alphabet A-Z a-z 0-9 + /,
 * with '=' padding to a multiple of four characters.
 *
 * Only the encoder is used by the service (the refresh secret is
 * `EncodeToString` of 32 random bytes); the decoder is its partner and
 * is what shows that encoding loses nothing.
 */
module Base64 {
  import opened Wrappers

  /** An octet, as Go's `byte`. */
  type byte = b: int | 0 <= b < 256

  /** A six-bit group, the value one base64 character carries. */
  type sextet = v: int | 0 <= v < 64

  const Pad: char := '='

  /** The character for a six-bit value (table 1 of RFC 4648). */
  function Char(v: sextet): (c: char)
    ensures c != Pad
  {
    if v < 26 then ('A' as int + v) as char
    else if v < 52 then ('a' as int + (v - 26)) as char
    else if v < 62 then ('0' as int + (v - 52)) as char
    else if v == 62 then '+'
    else '/'
  }

  /** The six-bit value of an alphabet character; `None` for any other character. */
  function Index(c: char): Option<sextet>
  {
    if 'A' <= c <= 'Z' then Some(c as int - 'A' as int)
    else if 'a' <= c <= 'z' then Some(c as int - 'a' as int + 26)
    else if '0' <= c <= '9' then Some(c as int - '0' as int + 52)
    else if c == '+' then Some(62)
    else if c == '/' then Some(63)
    else None
  }

  lemma IndexOfChar(v: sextet)
    ensures Index(Char(v)) == Some(v)
  {
  }

  /** Three octets as four characters. */
  function EncodeGroup(b0: byte, b1: byte, b2: byte): string
  {
    [Char(b0 / 4), Char(b0 % 4 * 16 + b1 / 16), Char(b1 % 16 * 4 + b2 / 64), Char(b2 % 64)]
  }

  /** `base64.StdEncoding.EncodeToString`: whole groups, then a padded final group. */
  function Encode(b: seq<byte>): string
    decreases |b|
  {
    if |b| == 0 then ""
    else if |b| == 1 then [Char(b[0] / 4), Char(b[0] % 4 * 16), Pad, Pad]
    else if |b| == 2 then [Char(b[0] / 4), Char(b[0] % 4 * 16 + b[1] / 16), Char(b[1] % 16 * 4), Pad]
    else EncodeGroup(b[0], b[1], b[2]) + Encode(b[3..])
  }

  /** The octets that four consecutive six-bit values carry. */
  function First(i0: sextet, i1: sextet): byte { (i0 as int) * 4 + (i1 as int) / 16 }
  function Second(i1: sextet, i2: sextet): byte { (i1 as int) % 16 * 16 + (i2 as int) / 4 }
  function Third(i2: sextet, i3: sextet): byte { (i2 as int) % 4 * 64 + (i3 as int) }

  /** Four unpadded characters back to three octets. */
  function DecodeGroup(c0: char, c1: char, c2: char, c3: char): Option<seq<byte>>
  {
    match (Index(c0), Index(c1), Index(c2), Index(c3))
    case (Some(i0), Some(i1), Some(i2), Some(i3)) =>
      Some([First(i0, i1), Second(i1, i2), Third(i2, i3)])
    case _ => None
  }

  /** The final group, which may end in one or two padding characters. */
  function DecodeLast(c0: char, c1: char, c2: char, c3: char): Option<seq<byte>>
  {
    if c2 == Pad && c3 == Pad then
      match (Index(c0), Index(c1))
      case (Some(i0), Some(i1)) => Some([First(i0, i1)])
      case _ => None
    else if c3 == Pad then
      match (Index(c0), Index(c1), Index(c2))
      case (Some(i0), Some(i1), Some(i2)) => Some([First(i0, i1), Second(i1, i2)])
      case _ => None
    else DecodeGroup(c0, c1, c2, c3)
  }

  /** Decoding; `None` when the text is not a padded base64 string. */
  function Decode(s: string): Option<seq<byte>>
    decreases |s|
  {
    if |s| == 0 then Some([])
    else if |s| < 4 then None
    else if |s| == 4 then DecodeLast(s[0], s[1], s[2], s[3])
    else
      match DecodeGroup(s[0], s[1], s[2], s[3])
      case None => None
      case Some(g) =>
        match Decode(s[4..])
        case None => None
        case Some(rest) => Some(g + rest)
  }

  /** Every three octets, or part of three, take four characters. */
  lemma {:induction false} EncodedLength(b: seq<byte>)
    ensures |Encode(b)| == 4 * ((|b| + 2) / 3)
    decreases |b|
  {
    if |b| > 2 {
      EncodedLength(b[3..]);
      assert (|b| + 2) / 3 == (|b[3..]| + 2) / 3 + 1;
    }
  }

  lemma FirstOfGroup(b0: byte, b1: byte)
    ensures First(b0 / 4, b0 % 4 * 16 + b1 / 16) == b0
  {
    assert (b0 % 4 * 16 + b1 / 16) / 16 == b0 % 4;
  }

  lemma SecondOfGroup(b0: byte, b1: byte, b2: byte)
    ensures Second(b0 % 4 * 16 + b1 / 16, b1 % 16 * 4 + b2 / 64) == b1
  {
    assert (b0 % 4 * 16 + b1 / 16) % 16 == b1 / 16;
    assert (b1 % 16 * 4 + b2 / 64) / 4 == b1 % 16;
  }

  lemma ThirdOfGroup(b1: byte, b2: byte)
    ensures Third(b1 % 16 * 4 + b2 / 64, b2 % 64) == b2
  {
    assert (b1 % 16 * 4 + b2 / 64) % 4 == b2 / 64;
  }

  lemma GroupRoundTrip(b0: byte, b1: byte, b2: byte)
    ensures var e := EncodeGroup(b0, b1, b2); DecodeGroup(e[0], e[1], e[2], e[3]) == Some([b0, b1, b2])
  {
    IndexOfChar(b0 / 4);
    IndexOfChar(b0 % 4 * 16 + b1 / 16);
    IndexOfChar(b1 % 16 * 4 + b2 / 64);
    IndexOfChar(b2 % 64);
    FirstOfGroup(b0, b1);
    SecondOfGroup(b0, b1, b2);
    ThirdOfGroup(b1, b2);
  }

  lemma OneOctetRoundTrip(b0: byte)
    ensures Decode(Encode([b0])) == Some([b0])
  {
    IndexOfChar(b0 / 4);
    IndexOfChar(b0 % 4 * 16);
    FirstOfGroup(b0, 0);
  }

  lemma TwoOctetsRoundTrip(b0: byte, b1: byte)
    ensures Decode(Encode([b0, b1])) == Some([b0, b1])
  {
    IndexOfChar(b0 / 4);
    IndexOfChar(b0 % 4 * 16 + b1 / 16);
    IndexOfChar(b1 % 16 * 4);
    FirstOfGroup(b0, b1);
    SecondOfGroup(b0, b1, 0);
  }

  lemma ThreeOctetsRoundTrip(b0: byte, b1: byte, b2: byte)
    ensures Decode(Encode([b0, b1, b2])) == Some([b0, b1, b2])
  {
    var b: seq<byte> := [b0, b1, b2];
    var g := EncodeGroup(b0, b1, b2);
    GroupRoundTrip(b0, b1, b2);
    assert b[3..] == [] && Encode(b[3..]) == "";
    assert Encode(b) == g;
    assert Decode(g) == DecodeLast(g[0], g[1], g[2], g[3]) == DecodeGroup(g[0], g[1], g[2], g[3]);
  }

  lemma EncodeNonEmpty(b: seq<byte>)
    requires |b| > 0
    ensures |Encode(b)| >= 4
  {
  }

  lemma EncodeSplit(b: seq<byte>)
    requires |b| > 3
    ensures Encode(b) == EncodeGroup(b[0], b[1], b[2]) + Encode(b[3..])
  {
  }

  /** One whole leading group decodes on its own, ahead of the rest. */
  lemma LeadingGroupRoundTrip(b: seq<byte>)
    requires |b| > 3
    requires Decode(Encode(b[3..])) == Some(b[3..])
    ensures Decode(Encode(b)) == Some(b)
  {
    var head, tail := b[..3], b[3..];
    var g, rest := EncodeGroup(b[0], b[1], b[2]), Encode(tail);
    EncodeSplit(b);
    EncodeNonEmpty(tail);
    LeadingGroupOf(b);
    LeadingGroupDecodes(g, rest, head, tail);
    assert b == head + tail;
  }

  lemma LeadingGroupOf(b: seq<byte>)
    requires |b| >= 3
    ensures var g := EncodeGroup(b[0], b[1], b[2]); DecodeGroup(g[0], g[1], g[2], g[3]) == Some(b[..3])
  {
    assert b[..3] == [b[0], b[1], b[2]];
    GroupRoundTrip(b[0], b[1], b[2]);
  }

  lemma LeadingGroupDecodes(g: string, rest: string, head: seq<byte>, tail: seq<byte>)
    requires |g| == 4 && |rest| >= 4
    requires DecodeGroup(g[0], g[1], g[2], g[3]) == Some(head)
    requires Decode(rest) == Some(tail)
    ensures Decode(g + rest) == Some(head + tail)
  {
    var s := g + rest;
    assert s[0] == g[0] && s[1] == g[1] && s[2] == g[2] && s[3] == g[3] && s[4..] == rest;
  }

  /** Decoding undoes encoding. */
  lemma {:induction false} DecodeEncode(b: seq<byte>)
    ensures Decode(Encode(b)) == Some(b)
    decreases |b|
  {
    if |b| == 1 {
      assert b == [b[0]];
      OneOctetRoundTrip(b[0]);
    } else if |b| == 2 {
      assert b == [b[0], b[1]];
      TwoOctetsRoundTrip(b[0], b[1]);
    } else if |b| == 3 {
      assert b == [b[0], b[1], b[2]];
      ThreeOctetsRoundTrip(b[0], b[1], b[2]);
    } else if |b| > 3 {
      DecodeEncode(b[3..]);
      LeadingGroupRoundTrip(b);
    }
  }

  /** Distinct octet strings have distinct encodings. */
  lemma EncodeInjective(a: seq<byte>, b: seq<byte>)
    ensures Encode(a) == Encode(b) ==> a == b
  {
    DecodeEncode(a);
    DecodeEncode(b);
  }
}
