/**
 * Base64 (section 4 of RFC 4648, with padding), as `java.util.Base64.getEncoder()`
 * produces it, and a decoder that is the encoder's partner.
 */
module Base64 {
  import opened Wrappers
  import opened Utf8

  /** A 6-bit value. */
  type Sextet = x: int | 0 <= x < 64

  /** The character of the base64 alphabet for index `i` (A-Z, a-z, 0-9, '+', '/'). */
  function CharOf(i: Sextet): char
  {
    if i < 26 then ('A' as int + i) as char
    else if i < 52 then ('a' as int + i - 26) as char
    else if i < 62 then ('0' as int + i - 52) as char
    else if i == 62 then '+'
    else '/'
  }

  /** The alphabet index of `c`, if `c` is in the alphabet. */
  function IndexOf(c: char): Option<Sextet>
  {
    if 'A' <= c <= 'Z' then Some(c as int - 'A' as int)
    else if 'a' <= c <= 'z' then Some(c as int - 'a' as int + 26)
    else if '0' <= c <= '9' then Some(c as int - '0' as int + 52)
    else if c == '+' then Some(62)
    else if c == '/' then Some(63)
    else None
  }

  lemma IndexOfCharOf(i: Sextet)
    ensures IndexOf(CharOf(i)) == Some(i)
    ensures CharOf(i) != '='
  {
  }

  /** Three bytes as four characters. */
  function EncodeGroup(b0: Byte, b1: Byte, b2: Byte): string
  {
    [CharOf(b0 / 4), CharOf(b0 % 4 * 16 + b1 / 16), CharOf(b1 % 16 * 4 + b2 / 64), CharOf(b2 % 64)]
  }

  /** The padded base64 text of `bs`: four characters per three bytes, the last group padded with '='. */
  function Encode(bs: seq<Byte>): string
  {
    if |bs| == 0 then ""
    else if |bs| == 1 then [CharOf(bs[0] / 4), CharOf(bs[0] % 4 * 16), '=', '=']
    else if |bs| == 2 then [CharOf(bs[0] / 4), CharOf(bs[0] % 4 * 16 + bs[1] / 16), CharOf(bs[1] % 16 * 4), '=']
    else EncodeGroup(bs[0], bs[1], bs[2]) + Encode(bs[3..])
  }

  /** The encoding has four characters for every started group of three bytes. */
  lemma {:induction false} EncodeLength(bs: seq<Byte>)
    ensures |Encode(bs)| == 4 * ((|bs| + 2) / 3)
  {
    if |bs| >= 3 {
      EncodeLength(bs[3..]);
      assert (|bs| + 2) / 3 == (|bs[3..]| + 2) / 3 + 1;
    }
  }

  /** Every character of the encoding is in the alphabet or is padding, and padding only ends it. */
  lemma {:induction false} EncodeAlphabet(bs: seq<Byte>)
    ensures forall k :: 0 <= k < |Encode(bs)| ==>
      IndexOf(Encode(bs)[k]).Some? || (Encode(bs)[k] == '=' && k >= |Encode(bs)| - 2)
  {
    if |bs| >= 3 {
      EncodeAlphabet(bs[3..]);
      forall i: Sextet { IndexOfCharOf(i); }
    } else {
      forall i: Sextet { IndexOfCharOf(i); }
    }
  }

  /** The bytes that a group's sextets carry: the first byte from the first 6 + 2 bits, and so on. */
  function Byte0(i0: Sextet, i1: Sextet): Byte { i0 as int * 4 + i1 as int / 16 }
  function Byte1(i1: Sextet, i2: Sextet): Byte { i1 as int % 16 * 16 + i2 as int / 4 }
  function Byte2(i2: Sextet, i3: Sextet): Byte { i2 as int % 4 * 64 + i3 as int }

  /** Four alphabet characters as three bytes. */
  function DecodeGroup(q: string): Option<seq<Byte>>
    requires |q| == 4
  {
    match (IndexOf(q[0]), IndexOf(q[1]), IndexOf(q[2]), IndexOf(q[3]))
    case (Some(i0), Some(i1), Some(i2), Some(i3)) =>
      Some([Byte0(i0, i1), Byte1(i1, i2), Byte2(i2, i3)])
    case _ => None
  }

  /** The last group: "xx==" holds one byte, "xxx=" two, "xxxx" three. */
  function DecodeFinal(q: string): Option<seq<Byte>>
    requires |q| == 4
  {
    if q[2] == '=' && q[3] == '=' then
      match (IndexOf(q[0]), IndexOf(q[1]))
      case (Some(i0), Some(i1)) => Some([Byte0(i0, i1)])
      case _ => None
    else if q[3] == '=' then
      match (IndexOf(q[0]), IndexOf(q[1]), IndexOf(q[2]))
      case (Some(i0), Some(i1), Some(i2)) => Some([Byte0(i0, i1), Byte1(i1, i2)])
      case _ => None
    else DecodeGroup(q)
  }

  /** Decodes padded base64 text; `None` when it is not the text of any byte string. */
  function Decode(s: string): Option<seq<Byte>>
  {
    if |s| == 0 then Some([])
    else if |s| < 4 then None
    else if |s| == 4 then DecodeFinal(s)
    else match (DecodeGroup(s[..4]), Decode(s[4..]))
      case (Some(g), Some(rest)) => Some(g + rest)
      case _ => None
  }

  lemma GroupRoundTrip(b0: Byte, b1: Byte, b2: Byte)
    ensures Byte0(b0 / 4, b0 % 4 * 16 + b1 / 16) == b0
    ensures Byte1(b0 % 4 * 16 + b1 / 16, b1 % 16 * 4 + b2 / 64) == b1
    ensures Byte2(b1 % 16 * 4 + b2 / 64, b2 % 64) == b2
  {
  }

  lemma GroupDecodes(b0: Byte, b1: Byte, b2: Byte)
    ensures DecodeGroup(EncodeGroup(b0, b1, b2)) == Some([b0, b1, b2])
    ensures DecodeFinal(EncodeGroup(b0, b1, b2)) == Some([b0, b1, b2])
  {
    var i0, i1, i2, i3 := b0 / 4, b0 % 4 * 16 + b1 / 16, b1 % 16 * 4 + b2 / 64, b2 % 64;
    IndexOfCharOf(i0);
    IndexOfCharOf(i1);
    IndexOfCharOf(i2);
    IndexOfCharOf(i3);
    GroupRoundTrip(b0, b1, b2);
  }

  lemma OneByteDecodes(b0: Byte)
    ensures Decode(Encode([b0])) == Some([b0])
  {
    var i0, i1 := b0 / 4, b0 % 4 * 16;
    var s := Encode([b0]);
    assert s == [CharOf(i0), CharOf(i1), '=', '='];
    assert Decode(s) == DecodeFinal(s);
    IndexOfCharOf(i0);
    IndexOfCharOf(i1);
    assert Byte0(i0, i1) == b0;
  }

  lemma TwoBytesDecode(b0: Byte, b1: Byte)
    ensures Decode(Encode([b0, b1])) == Some([b0, b1])
  {
    var i0, i1, i2 := b0 / 4, b0 % 4 * 16 + b1 / 16, b1 % 16 * 4;
    var s := Encode([b0, b1]);
    assert s == [CharOf(i0), CharOf(i1), CharOf(i2), '='];
    assert Decode(s) == DecodeFinal(s);
    IndexOfCharOf(i0);
    IndexOfCharOf(i1);
    IndexOfCharOf(i2);
    GroupRoundTrip(b0, b1, 0);
    assert DecodeFinal(s) == Some([Byte0(i0, i1), Byte1(i1, i2)]);
  }

  /** A full group followed by more text decodes as the group, then the rest. */
  lemma DecodeGroupThen(g: string, t: string)
    requires |g| == 4 && |t| > 0
    ensures DecodeGroup(g).Some? && Decode(t).Some? ==> Decode(g + t) == Some(DecodeGroup(g).value + Decode(t).value)
  {
    var s := g + t;
    assert s[..4] == g && s[4..] == t;
  }

  lemma ThreeThenRest(bs: seq<Byte>)
    requires |bs| >= 3
    ensures Encode(bs) == EncodeGroup(bs[0], bs[1], bs[2]) + Encode(bs[3..])
  {
  }

  lemma SplitThree(bs: seq<Byte>)
    requires |bs| >= 3
    ensures [bs[0], bs[1], bs[2]] + bs[3..] == bs
  {
    assert bs[..3] == [bs[0], bs[1], bs[2]];
    assert bs[..3] + bs[3..] == bs;
  }

  /** A group of three bytes followed by text that decodes to `rest` decodes to those bytes, then `rest`. */
  lemma GroupThenRest(b0: Byte, b1: Byte, b2: Byte, t: string, rest: seq<Byte>)
    requires Decode(t) == Some(rest)
    ensures Decode(EncodeGroup(b0, b1, b2) + t) == Some([b0, b1, b2] + rest)
  {
    var g := EncodeGroup(b0, b1, b2);
    GroupDecodes(b0, b1, b2);
    if t == [] {
      assert rest == [];
      assert g + t == g && [b0, b1, b2] + rest == [b0, b1, b2];
    } else {
      DecodeGroupThen(g, t);
    }
  }

  /** Decoding the encoding of any byte string gives the bytes back. */
  lemma {:induction false} DecodeEncode(bs: seq<Byte>)
    ensures Decode(Encode(bs)) == Some(bs)
  {
    if |bs| == 1 {
      OneByteDecodes(bs[0]);
      assert [bs[0]] == bs;
    } else if |bs| == 2 {
      TwoBytesDecode(bs[0], bs[1]);
      assert [bs[0], bs[1]] == bs;
    } else if |bs| >= 3 {
      DecodeEncode(bs[3..]);
      ThreeThenRest(bs);
      SplitThree(bs);
      GroupThenRest(bs[0], bs[1], bs[2], Encode(bs[3..]), bs[3..]);
    }
  }
}
