/**
  Padded base64 with the standard alphabet (section 4 of RFC 4648), as
  Go's base64.StdEncoding writes it; the decoder is the one the tests use to
  read a guest-pull option back.
 */
module Base64 {
  import opened Wrappers
  import opened Bytes

  type index = i: int | 0 <= i < 64

  /** The 64-character alphabet of section 4 of RFC 4648. */
  function Alphabet(i: index): (c: char)
  {
    if i < 26 then ('A' as int + i) as char
    else if i < 52 then ('a' as int + (i - 26)) as char
    else if i < 62 then ('0' as int + (i - 52)) as char
    else if i == 62 then '+'
    else '/'
  }

  function IndexOf(c: char): Option<index>
  {
    if 'A' <= c <= 'Z' then Some(c as int - 'A' as int)
    else if 'a' <= c <= 'z' then Some(c as int - 'a' as int + 26)
    else if '0' <= c <= '9' then Some(c as int - '0' as int + 52)
    else if c == '+' then Some(62)
    else if c == '/' then Some(63)
    else None
  }

  /** Every alphabet character decodes to its own position, and none is the pad. */
  lemma AlphabetIndex(i: index)
    ensures IndexOf(Alphabet(i)) == Some(i)
    ensures Alphabet(i) != '=' && Alphabet(i) != ','
  {
  }

  /** A character that the encoder may write. */
  predicate IsEncodingChar(c: char) {
    IndexOf(c).Some? || c == '='
  }

  /** Three octets as four characters: their 24 bits cut into four 6-bit groups. */
  function EncodeBlock(b0: byte, b1: byte, b2: byte): seq<char>
  {
    [Alphabet(b0 / 4), Alphabet(b0 % 4 * 16 + b1 / 16), Alphabet(b1 % 16 * 4 + b2 / 64), Alphabet(b2 % 64)]
  }

  /** The last one or two octets, zero-filled to a 6-bit boundary and padded with '='. */
  function EncodeTail(b: seq<byte>): seq<char>
    requires 1 <= |b| <= 2
  {
    if |b| == 1 then
      [Alphabet(b[0] / 4), Alphabet(b[0] % 4 * 16), '=', '=']
    else
      [Alphabet(b[0] / 4), Alphabet(b[0] % 4 * 16 + b[1] / 16), Alphabet(b[1] % 16 * 4), '=']
  }

  /** base64.StdEncoding.EncodeToString */
  function Encode(b: seq<byte>): (r: string)
    ensures |r| == (|b| + 2) / 3 * 4
    ensures forall i :: 0 <= i < |r| ==> IsEncodingChar(r[i])
  {
    if |b| == 0 then []
    else if |b| < 3 then EncodeTail(b)
    else EncodeBlock(b[0], b[1], b[2]) + Encode(b[3..])
  }

  function Octet0(i0: index, i1: index): byte { i0 * 4 + i1 / 16 }
  function Octet1(i1: index, i2: index): byte { i1 % 16 * 16 + i2 / 4 }
  function Octet2(i2: index, i3: index): byte { i2 % 4 * 64 + i3 }

  function DecodeBlock(c0: char, c1: char, c2: char, c3: char): Option<seq<byte>>
  {
    match (IndexOf(c0), IndexOf(c1), IndexOf(c2), IndexOf(c3))
    case (Some(i0), Some(i1), Some(i2), Some(i3)) =>
      Some([Octet0(i0, i1), Octet1(i1, i2), Octet2(i2, i3)])
    case _ => None
  }

  /** The final quantum, which may carry one or two pad characters; unused low bits are ignored. */
  function DecodeLast(c0: char, c1: char, c2: char, c3: char): Option<seq<byte>>
  {
    if c2 == '=' && c3 == '=' then
      match (IndexOf(c0), IndexOf(c1))
      case (Some(i0), Some(i1)) => Some([Octet0(i0, i1)])
      case _ => None
    else if c3 == '=' then
      match (IndexOf(c0), IndexOf(c1), IndexOf(c2))
      case (Some(i0), Some(i1), Some(i2)) => Some([Octet0(i0, i1), Octet1(i1, i2)])
      case _ => None
    else DecodeBlock(c0, c1, c2, c3)
  }

  /** base64.StdEncoding.DecodeString for padded input: None on malformed text. */
  function Decode(s: string): Option<seq<byte>>
    decreases |s|
  {
    if |s| == 0 then Some([])
    else if |s| < 4 then None
    else if |s| == 4 then DecodeLast(s[0], s[1], s[2], s[3])
    else
      match (DecodeBlock(s[0], s[1], s[2], s[3]), Decode(s[4..]))
      case (Some(head), Some(tail)) => Some(head + tail)
      case _ => None
  }

  lemma OctetsRoundTrip(b0: byte, b1: byte, b2: byte)
    ensures Octet0(b0 / 4, b0 % 4 * 16 + b1 / 16) == b0
    ensures Octet1(b0 % 4 * 16 + b1 / 16, b1 % 16 * 4 + b2 / 64) == b1
    ensures Octet2(b1 % 16 * 4 + b2 / 64, b2 % 64) == b2
  {
    var hi0, lo0 := b0 / 4, b0 % 4;
    var hi1, lo1 := b1 / 16, b1 % 16;
    var hi2, lo2 := b2 / 64, b2 % 64;
    assert (lo0 * 16 + hi1) / 16 == lo0 && (lo0 * 16 + hi1) % 16 == hi1;
    assert (lo1 * 4 + hi2) / 4 == lo1 && (lo1 * 4 + hi2) % 4 == hi2;
  }

  lemma BlockRoundTrip(b0: byte, b1: byte, b2: byte)
    ensures var t := EncodeBlock(b0, b1, b2); DecodeBlock(t[0], t[1], t[2], t[3]) == Some([b0, b1, b2])
  {
    AlphabetIndex(b0 / 4); AlphabetIndex(b0 % 4 * 16 + b1 / 16);
    AlphabetIndex(b1 % 16 * 4 + b2 / 64); AlphabetIndex(b2 % 64);
    OctetsRoundTrip(b0, b1, b2);
  }

  lemma TailRoundTrip(b: seq<byte>)
    requires 1 <= |b| <= 2
    ensures var t := EncodeTail(b); DecodeLast(t[0], t[1], t[2], t[3]) == Some(b)
  {
    if |b| == 1 {
      AlphabetIndex(b[0] / 4); AlphabetIndex(b[0] % 4 * 16);
      OctetsRoundTrip(b[0], 0, 0);
      assert [b[0]] == b;
    } else {
      AlphabetIndex(b[0] / 4); AlphabetIndex(b[0] % 4 * 16 + b[1] / 16); AlphabetIndex(b[1] % 16 * 4);
      OctetsRoundTrip(b[0], b[1], 0);
      assert [b[0], b[1]] == b;
    }
  }

  /** Decoding what the encoder wrote gives back the octets. */
  lemma {:induction false} RoundTrip(b: seq<byte>)
    ensures Decode(Encode(b)) == Some(b)
    decreases |b|
  {
    if |b| == 0 {
    } else if |b| < 3 {
      TailRoundTrip(b);
    } else {
      var head := EncodeBlock(b[0], b[1], b[2]);
      var tail := Encode(b[3..]);
      assert Encode(b) == head + tail;
      BlockRoundTrip(b[0], b[1], b[2]);
      RoundTrip(b[3..]);
      if |b| == 3 {
        assert b[3..] == [];
        assert head + tail == head;
        assert [b[0], b[1], b[2]] == b;
      } else {
        DecodeAfterBlock(head, tail);
        assert [b[0], b[1], b[2]] + b[3..] == b;
      }
    }
  }

  lemma DecodeAfterBlock(head: string, tail: string)
    requires |head| == 4 && |tail| > 0
    ensures Decode(head + tail) ==
      match (DecodeBlock(head[0], head[1], head[2], head[3]), Decode(tail))
      case (Some(h), Some(t)) => Some(h + t)
      case _ => None
  {
    var s := head + tail;
    assert s[0] == head[0] && s[1] == head[1] && s[2] == head[2] && s[3] == head[3];
    assert s[4..] == tail;
  }
}
