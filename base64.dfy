/**
 * The Base64 encoding of section 4 of RFC 4648 (alphabet `A-Z a-z 0-9 + /`,
 * `=` padding), as `base64.b64encode` computes it, together with a decoder
 * that serves as its partner: decoding an encoding gives the input back.
 */
module Base64 {
  import opened Wrappers

  /** One octet of a Python `bytes` value. */
  type byte = x: int | 0 <= x < 256

  /** A 6-bit group, the unit that one Base64 character carries. */
  type sextet = x: int | 0 <= x < 64

  const Pad: char := '='

  predicate IsAlphabetChar(c: char) {
    ('A' <= c <= 'Z') || ('a' <= c <= 'z') || ('0' <= c <= '9') || c == '+' || c == '/'
  }

  /** The character of the Base64 alphabet (Table 1 of RFC 4648) for the value `v`. */
  function CharOf(v: sextet): (c: char)
    ensures IsAlphabetChar(c)
  {
    if v < 26 then ('A' as int + v) as char
    else if v < 52 then ('a' as int + (v - 26)) as char
    else if v < 62 then ('0' as int + (v - 52)) as char
    else if v == 62 then '+'
    else '/'
  }

  /** The value of an alphabet character; `None` for every other character, `=` included. */
  function ValueOf(c: char): (r: Option<sextet>)
    ensures r.Some? <==> IsAlphabetChar(c)
    ensures r.Some? ==> CharOf(r.value) == c
  {
    if 'A' <= c <= 'Z' then Some(c as int - 'A' as int)
    else if 'a' <= c <= 'z' then Some(c as int - 'a' as int + 26)
    else if '0' <= c <= '9' then Some(c as int - '0' as int + 52)
    else if c == '+' then Some(62)
    else if c == '/' then Some(63)
    else None
  }

  lemma ValueOfCharOf(v: sextet)
    ensures ValueOf(CharOf(v)) == Some(v)
  {
  }

  /** Three octets become four characters. */
  function EncodeBlock(b0: byte, b1: byte, b2: byte): string {
    [CharOf(b0 / 4), CharOf((b0 % 4) * 16 + b1 / 16), CharOf((b1 % 16) * 4 + b2 / 64), CharOf(b2 % 64)]
  }

  /** A final group of two octets: three characters and one `=`. */
  function EncodeTail2(b0: byte, b1: byte): string {
    [CharOf(b0 / 4), CharOf((b0 % 4) * 16 + b1 / 16), CharOf((b1 % 16) * 4), Pad]
  }

  /** A final group of one octet: two characters and `==`. */
  function EncodeTail1(b0: byte): string {
    [CharOf(b0 / 4), CharOf((b0 % 4) * 16), Pad, Pad]
  }

  /**
   * `base64.b64encode(s)`. The output has four characters for every started
   * group of three octets, uses only the alphabet and `=`, and `=` appears
   * only in the last two positions.
   */
  function Encode(s: seq<byte>): (r: string)
    ensures |r| == 4 * ((|s| + 2) / 3)
    ensures forall i :: 0 <= i < |r| ==> IsAlphabetChar(r[i]) || (r[i] == Pad && i >= |r| - 2)
    decreases |s|
  {
    if |s| == 0 then []
    else if |s| == 1 then EncodeTail1(s[0])
    else if |s| == 2 then EncodeTail2(s[0], s[1])
    else EncodeBlock(s[0], s[1], s[2]) + Encode(s[3..])
  }

  /**
   * The test vectors of section 10 of RFC 4648 (`"f"` to `"foobar"`), and the
   * two-octet value 0xFB 0xFF, whose encoding uses the last two alphabet
   * characters `+` and `/`.
   */
  lemma TestVectors()
    ensures Encode([]) == ""
    ensures Encode([102]) == "Zg=="
    ensures Encode([102, 111]) == "Zm8="
    ensures Encode([102, 111, 111]) == "Zm9v"
    ensures Encode([102, 111, 111, 98]) == "Zm9vYg=="
    ensures Encode([102, 111, 111, 98, 97]) == "Zm9vYmE="
    ensures Encode([102, 111, 111, 98, 97, 114]) == "Zm9vYmFy"
    ensures Encode([0xFB, 0xFF]) == "+/8="
  {
  }

  /** Decodes one group of four characters, of which the last one or two may be `=`. */
  function DecodeQuad(q: string): (r: Option<seq<byte>>)
    requires |q| == 4
    ensures r.Some? ==> 1 <= |r.value| <= 3
  {
    var a :- ValueOf(q[0]);
    var b :- ValueOf(q[1]);
    if q[2] == Pad && q[3] == Pad then
      Some([a * 4 + b / 16])
    else
      var c :- ValueOf(q[2]);
      if q[3] == Pad then
        Some([a * 4 + b / 16, (b % 16) * 16 + c / 4])
      else
        var d :- ValueOf(q[3]);
        Some([a * 4 + b / 16, (b % 16) * 16 + c / 4, (c % 4) * 64 + d])
  }

  /**
   * Decodes a padded Base64 text: a sequence of four-character groups in which
   * only the last may carry padding. `None` for any other text.
   */
  function Decode(t: string): Option<seq<byte>>
    decreases |t|
  {
    if |t| == 0 then Some([])
    else if |t| < 4 then None
    else if |t| == 4 then DecodeQuad(t)
    else
      var q :- DecodeQuad(t[..4]);
      if |q| != 3 then None
      else
        var rest :- Decode(t[4..]);
        Some(q + rest)
  }

  lemma SplitByte(b: byte, k: int)
    requires k == 4 || k == 16 || k == 64
    ensures b == (b / k) * k + b % k && 0 <= b % k < k
  {
  }

  lemma BlockRoundTrip(b0: byte, b1: byte, b2: byte)
    ensures DecodeQuad(EncodeBlock(b0, b1, b2)) == Some([b0, b1, b2])
  {
    var q := EncodeBlock(b0, b1, b2);
    var c1 := (b0 % 4) * 16 + b1 / 16;
    var c2 := (b1 % 16) * 4 + b2 / 64;
    ValueOfCharOf(b0 / 4);
    ValueOfCharOf(c1);
    ValueOfCharOf(c2);
    ValueOfCharOf(b2 % 64);
    SplitByte(b0, 4);
    SplitByte(b1, 16);
    SplitByte(b2, 64);
    assert c1 / 16 == b0 % 4 && c1 % 16 == b1 / 16;
    assert c2 / 4 == b1 % 16 && c2 % 4 == b2 / 64;
  }

  lemma Tail2RoundTrip(b0: byte, b1: byte)
    ensures DecodeQuad(EncodeTail2(b0, b1)) == Some([b0, b1])
  {
    var c1 := (b0 % 4) * 16 + b1 / 16;
    ValueOfCharOf(b0 / 4);
    ValueOfCharOf(c1);
    ValueOfCharOf((b1 % 16) * 4);
    SplitByte(b0, 4);
    SplitByte(b1, 16);
    assert c1 / 16 == b0 % 4 && c1 % 16 == b1 / 16;
    assert ((b1 % 16) * 4) / 4 == b1 % 16;
  }

  lemma Tail1RoundTrip(b0: byte)
    ensures DecodeQuad(EncodeTail1(b0)) == Some([b0])
  {
    ValueOfCharOf(b0 / 4);
    ValueOfCharOf((b0 % 4) * 16);
    SplitByte(b0, 4);
    assert ((b0 % 4) * 16) / 16 == b0 % 4;
  }

  /** A full group in front of a decodable text decodes to its three octets in front. */
  lemma DecodeGroupThen(blk: string, rest: string, q: seq<byte>, r: seq<byte>)
    requires |blk| == 4 && DecodeQuad(blk) == Some(q) && |q| == 3
    requires Decode(rest) == Some(r)
    ensures Decode(blk + rest) == Some(q + r)
  {
    var t := blk + rest;
    if |rest| == 0 {
      assert t == blk && r == [] && q + r == q;
    } else {
      assert t[..4] == blk && t[4..] == rest;
    }
  }

  /** Decoding undoes encoding, for every byte sequence. */
  lemma {:induction false} DecodeEncode(s: seq<byte>)
    ensures Decode(Encode(s)) == Some(s)
    decreases |s|
  {
    if |s| < 3 {
      DecodeEncodeShort(s);
    } else {
      DecodeEncode(s[3..]);
      DecodeEncodeStep(s);
    }
  }

  /** A full first group in front of a text that decodes back to the rest. */
  lemma DecodeEncodeStep(s: seq<byte>)
    requires |s| >= 3 && Decode(Encode(s[3..])) == Some(s[3..])
    ensures Decode(Encode(s)) == Some(s)
  {
    EncodeSplit(s);
    BlockThen(s, Encode(s[3..]));
  }

  /** The encoding of three or more octets is the first group's encoding, then the rest's. */
  lemma EncodeSplit(s: seq<byte>)
    requires |s| >= 3
    ensures Encode(s) == EncodeBlock(s[0], s[1], s[2]) + Encode(s[3..])
  {
  }

  /** The first three octets encoded in front of a text that decodes to the others decode to all of them. */
  lemma BlockThen(s: seq<byte>, rest: string)
    requires |s| >= 3 && Decode(rest) == Some(s[3..])
    ensures Decode(EncodeBlock(s[0], s[1], s[2]) + rest) == Some(s)
  {
    BlockRoundTrip(s[0], s[1], s[2]);
    DecodeGroupThen(EncodeBlock(s[0], s[1], s[2]), rest, [s[0], s[1], s[2]], s[3..]);
    assert [s[0], s[1], s[2]] + s[3..] == s;
  }

  /** The final group: no octet, or one or two octets with padding. */
  lemma DecodeEncodeShort(s: seq<byte>)
    requires |s| < 3
    ensures Decode(Encode(s)) == Some(s)
  {
    if |s| == 1 {
      DecodeEncodeOne(s);
    } else if |s| == 2 {
      DecodeEncodeTwo(s);
    }
  }

  lemma DecodeEncodeOne(s: seq<byte>)
    requires |s| == 1
    ensures Decode(Encode(s)) == Some(s)
  {
    Tail1RoundTrip(s[0]);
    assert Encode(s) == EncodeTail1(s[0]);
    assert s == [s[0]];
  }

  lemma DecodeEncodeTwo(s: seq<byte>)
    requires |s| == 2
    ensures Decode(Encode(s)) == Some(s)
  {
    Tail2RoundTrip(s[0], s[1]);
    assert Encode(s) == EncodeTail2(s[0], s[1]);
    assert s == [s[0], s[1]];
  }
}
