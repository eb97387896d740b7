/** The Base64 encoding of section 4 of RFC 4648 (Python's
    `base64.b64encode`), with the decoding that undoes it. */
module Base64 {
  import opened Common

  type Byte = b: int | 0 <= b < 256

  /** Table 1 of RFC 4648, section 4: the character for a 6-bit value. */
  function CharOf(i: nat): (c: char)
    requires i < 64
    ensures c != '='
  {
    if i < 26 then (('A' as int) + i) as char
    else if i < 52 then (('a' as int) + i - 26) as char
    else if i < 62 then (('0' as int) + i - 52) as char
    else if i == 62 then '+'
    else '/'
  }

  /** The 6-bit value of an alphabet character; `None` for anything else
      (the pad character included). */
  function ValueOf(c: char): (r: Option<nat>)
    ensures r.Some? ==> r.value < 64 && CharOf(r.value) == c
  {
    if 'A' <= c <= 'Z' then Some(c as int - 'A' as int)
    else if 'a' <= c <= 'z' then Some(c as int - 'a' as int + 26)
    else if '0' <= c <= '9' then Some(c as int - '0' as int + 52)
    else if c == '+' then Some(62)
    else if c == '/' then Some(63)
    else None
  }

  lemma ValueOfCharOf(i: nat)
    requires i < 64
    ensures ValueOf(CharOf(i)) == Some(i)
  {
  }

  // The four 6-bit values of a group of three bytes b0 b1 b2 (bits
  // b0[7..2], b0[1..0] b1[7..4], b1[3..0] b2[7..6], b2[5..0]).

  function Sextet0(b0: Byte): (c: nat)
    ensures c < 64
  {
    b0 / 4
  }

  function Sextet1(b0: Byte, b1: Byte): (c: nat)
    ensures c < 64
  {
    (b0 % 4) * 16 + b1 / 16
  }

  function Sextet2(b1: Byte, b2: Byte): (c: nat)
    ensures c < 64
  {
    (b1 % 16) * 4 + b2 / 64
  }

  function Sextet3(b2: Byte): (c: nat)
    ensures c < 64
  {
    b2 % 64
  }

  // A final group of one or two bytes is zero-filled on the right.

  function LastSextet1(b0: Byte): (c: nat)
    ensures c < 64
  {
    (b0 % 4) * 16
  }

  function LastSextet2(b1: Byte): (c: nat)
    ensures c < 64
  {
    (b1 % 16) * 4
  }

  // The three bytes of four 6-bit values, the inverse regrouping.

  function Octet0(c0: nat, c1: nat): (b: Byte)
    requires c0 < 64 && c1 < 64
  {
    c0 * 4 + c1 / 16
  }

  function Octet1(c1: nat, c2: nat): (b: Byte)
    requires c1 < 64 && c2 < 64
  {
    (c1 % 16) * 16 + c2 / 4
  }

  function Octet2(c2: nat, c3: nat): (b: Byte)
    requires c2 < 64 && c3 < 64
  {
    (c2 % 4) * 64 + c3
  }

  /** Regrouping the sextets of three bytes gives the bytes back. */
  lemma RegroupSextets(b0: Byte, b1: Byte, b2: Byte)
    ensures Octet0(Sextet0(b0), Sextet1(b0, b1)) == b0
    ensures Octet1(Sextet1(b0, b1), Sextet2(b1, b2)) == b1
    ensures Octet2(Sextet2(b1, b2), Sextet3(b2)) == b2
  {
  }

  /** The zero-filled sextets of a final group regroup to its bytes. */
  lemma RegroupLastSextets(b0: Byte, b1: Byte)
    ensures Octet0(Sextet0(b0), LastSextet1(b0)) == b0
    ensures Octet0(Sextet0(b0), Sextet1(b0, b1)) == b0
    ensures Octet1(Sextet1(b0, b1), LastSextet2(b1)) == b1
  {
  }

  /** The number of groups `n` bytes are cut into: threes, and a last
      group of one or two. */
  function Groups(n: nat): nat
  {
    if n == 0 then 0 else if n < 3 then 1 else 1 + Groups(n - 3)
  }

  /** The four characters for one group of three bytes. */
  function Quad(b0: Byte, b1: Byte, b2: Byte): (q: string)
    ensures |q| == 4
  {
    [CharOf(Sextet0(b0)), CharOf(Sextet1(b0, b1)), CharOf(Sextet2(b1, b2)), CharOf(Sextet3(b2))]
  }

  /** `b64encode`: three bytes to four characters; a final group of one or
      two bytes is zero-filled and padded with `=` (RFC 4648, section 4). */
  function Encode(bs: seq<Byte>): (s: string)
    ensures |s| == 4 * Groups(|bs|)
  {
    if |bs| == 0 then []
    else if |bs| < 3 then EncodeLast(bs)
    else Quad(bs[0], bs[1], bs[2]) + Encode(bs[3..])
  }

  /** The padded group for a final one or two bytes. */
  function EncodeLast(bs: seq<Byte>): (q: string)
    requires 1 <= |bs| <= 2
    ensures |q| == 4
  {
    if |bs| == 1 then [CharOf(Sextet0(bs[0])), CharOf(LastSextet1(bs[0])), '=', '=']
    else [CharOf(Sextet0(bs[0])), CharOf(Sextet1(bs[0], bs[1])), CharOf(LastSextet2(bs[1])), '=']
  }

  /** Decodes one full group of four alphabet characters. */
  function DecodeQuad(q: string): (r: Option<seq<Byte>>)
    requires |q| == 4
    ensures r.Some? ==> |r.value| == 3
  {
    match (ValueOf(q[0]), ValueOf(q[1]), ValueOf(q[2]), ValueOf(q[3]))
    case (Some(c0), Some(c1), Some(c2), Some(c3)) =>
      Some([Octet0(c0, c1), Octet1(c1, c2), Octet2(c2, c3)])
    case _ => None
  }

  /** The inverse of `Encode`: `None` for a string that is not a padded
      Base64 text. */
  function Decode(s: string): (r: Option<seq<Byte>>)
    decreases |s|
  {
    if |s| == 0 then Some([])
    else if |s| < 4 then None
    else if |s| == 4 then DecodeLast(s)
    else if DecodeQuad(s[..4]).Some? && Decode(s[4..]).Some? then Some(DecodeQuad(s[..4]).value + Decode(s[4..]).value)
    else None
  }

  /** The last group: one or two bytes when padded, three otherwise. */
  function DecodeLast(q: string): (r: Option<seq<Byte>>)
    requires |q| == 4
  {
    if q[2] == '=' && q[3] == '=' then
      if ValueOf(q[0]).Some? && ValueOf(q[1]).Some? then Some([Octet0(ValueOf(q[0]).value, ValueOf(q[1]).value)])
      else None
    else if q[3] == '=' then
      if ValueOf(q[0]).Some? && ValueOf(q[1]).Some? && ValueOf(q[2]).Some? then
        Some([Octet0(ValueOf(q[0]).value, ValueOf(q[1]).value), Octet1(ValueOf(q[1]).value, ValueOf(q[2]).value)])
      else None
    else DecodeQuad(q)
  }

  lemma QuadRoundTrip(b0: Byte, b1: Byte, b2: Byte)
    ensures Quad(b0, b1, b2)[3] != '='
    ensures DecodeQuad(Quad(b0, b1, b2)) == Some([b0, b1, b2])
  {
    ValueOfCharOf(Sextet0(b0));
    ValueOfCharOf(Sextet1(b0, b1));
    ValueOfCharOf(Sextet2(b1, b2));
    ValueOfCharOf(Sextet3(b2));
    RegroupSextets(b0, b1, b2);
  }

  lemma OneByteRoundTrip(b0: Byte)
    ensures Decode(Encode([b0])) == Some([b0])
  {
    ValueOfCharOf(Sextet0(b0));
    ValueOfCharOf(LastSextet1(b0));
    RegroupLastSextets(b0, 0);
  }

  lemma TwoBytesRoundTrip(b0: Byte, b1: Byte)
    ensures Decode(Encode([b0, b1])) == Some([b0, b1])
  {
    ValueOfCharOf(Sextet0(b0));
    ValueOfCharOf(Sextet1(b0, b1));
    ValueOfCharOf(LastSextet2(b1));
    RegroupLastSextets(b0, b1);
  }

  /** A full unpadded group in front decodes on its own. */
  lemma DecodeGroup(q: string, rest: string)
    requires |q| == 4 && q[3] != '='
    ensures Decode(q + rest)
      == if DecodeQuad(q).Some? && Decode(rest).Some? then Some(DecodeQuad(q).value + Decode(rest).value) else None
  {
    var s := q + rest;
    assert s[..4] == q && s[4..] == rest;
    if rest == [] {
      assert s == q;
      if DecodeQuad(q).Some? {
        assert DecodeQuad(q).value + [] == DecodeQuad(q).value;
      }
    }
  }

  /** Each group of up to three bytes becomes four characters. */
  lemma EncodeLength(bs: seq<Byte>)
    ensures |Encode(bs)| == (|bs| + 2) / 3 * 4
  {
    GroupsCeil(|bs|);
  }

  /** There are ceil(n / 3) groups. */
  lemma {:induction false} GroupsCeil(n: nat)
    ensures Groups(n) == (n + 2) / 3
    decreases n
  {
    if n >= 3 {
      GroupsCeil(n - 3);
      assert (n + 2) / 3 == (n - 1) / 3 + 1;
    }
  }

  /** Decoding what `Encode` wrote gives back the bytes. */
  lemma {:induction false} DecodeEncode(bs: seq<Byte>)
    ensures Decode(Encode(bs)) == Some(bs)
    decreases |bs|
  {
    var s := Encode(bs);
    if |bs| == 1 {
      OneByteRoundTrip(bs[0]);
      assert bs == [bs[0]];
    } else if |bs| == 2 {
      TwoBytesRoundTrip(bs[0], bs[1]);
      assert bs == [bs[0], bs[1]];
    } else if |bs| >= 3 {
      DecodeEncode(bs[3..]);
      DecodeEncodeGroup(bs);
    }
  }

  /** A leading group of three bytes decodes back in front of the rest. */
  lemma DecodeEncodeGroup(bs: seq<Byte>)
    requires |bs| >= 3 && Decode(Encode(bs[3..])) == Some(bs[3..])
    ensures Decode(Encode(bs)) == Some(bs)
  {
    EncodeFront(bs);
    QuadRoundTrip(bs[0], bs[1], bs[2]);
    SplitFront(bs);
    GroupThenRest(Encode(bs), Quad(bs[0], bs[1], bs[2]), Encode(bs[3..]), [bs[0], bs[1], bs[2]], bs[3..]);
  }

  lemma EncodeFront(bs: seq<Byte>)
    requires |bs| >= 3
    ensures Encode(bs) == Quad(bs[0], bs[1], bs[2]) + Encode(bs[3..])
  {
  }

  lemma SplitFront(bs: seq<Byte>)
    requires |bs| >= 3
    ensures [bs[0], bs[1], bs[2]] + bs[3..] == bs
  {
  }

  lemma GroupThenRest(s: string, q: string, rest: string, front: seq<Byte>, tail: seq<Byte>)
    requires s == q + rest && |q| == 4 && q[3] != '='
    requires DecodeQuad(q) == Some(front) && Decode(rest) == Some(tail)
    ensures Decode(s) == Some(front + tail)
  {
    DecodeGroup(q, rest);
  }
}
