/** Bytes and their Base16 text form (section 8 of RFC 4648, lower-case alphabet on output),
    as Node's Buffer produces and reads it. */
module Hex {

  newtype byte = x: int | 0 <= x < 256

  const Alphabet: string := "0123456789abcdef"

  /** The characters Node accepts as hex digits, in either case. */
  predicate IsHexChar(c: char)
  {
    ('0' <= c <= '9') || ('a' <= c <= 'f') || ('A' <= c <= 'F')
  }

  /** The characters `toString('hex')` emits. */
  predicate IsLowerHexChar(c: char)
  {
    ('0' <= c <= '9') || ('a' <= c <= 'f')
  }

  function HexValue(c: char): (v: nat)
    requires IsHexChar(c)
    ensures v < 16
  {
    if '0' <= c <= '9' then c as int - '0' as int
    else if 'a' <= c <= 'f' then c as int - 'a' as int + 10
    else c as int - 'A' as int + 10
  }

  function HexDigit(n: nat): (c: char)
    requires n < 16
    ensures IsLowerHexChar(c) && IsHexChar(c) && HexValue(c) == n
  {
    Alphabet[n]
  }

  /** `buf.toString('hex')`: two lower-case digits per byte, high nibble first. */
  function Encode(bs: seq<byte>): (s: string)
    ensures |s| == 2 * |bs|
    ensures forall k :: 0 <= k < |s| ==> IsLowerHexChar(s[k])
  {
    if |bs| == 0 then ""
    else [HexDigit(bs[0] as nat / 16), HexDigit(bs[0] as nat % 16)] + Encode(bs[1..])
  }

  /** `Buffer.from(s, 'hex')`: decodes two characters at a time from the start and stops
      at the first pair that is not two hex digits, so a trailing odd character and
      everything from the first bad pair on are dropped without an error. A decipher's
      `update(data, 'hex')` also decodes this way, but first refuses data of odd length. */
  function Decode(s: string): (bs: seq<byte>)
    ensures 2 * |bs| <= |s|
    decreases |s|
  {
    if |s| < 2 || !IsHexChar(s[0]) || !IsHexChar(s[1]) then []
    else [(HexValue(s[0]) * 16 + HexValue(s[1])) as byte] + Decode(s[2..])
  }

  /** Decoding inverts encoding. */
  lemma {:induction false} DecodeEncode(bs: seq<byte>)
    ensures Decode(Encode(bs)) == bs
  {
    if |bs| > 0 {
      var s := Encode(bs);
      assert s[2..] == Encode(bs[1..]);
      DecodeEncode(bs[1..]);
      assert [bs[0]] + bs[1..] == bs;
    }
  }

  /** Decoding reads an encoding completely and then goes on with what follows it. */
  lemma {:induction false} DecodeEncodeThen(bs: seq<byte>, t: string)
    ensures Decode(Encode(bs) + t) == bs + Decode(t)
  {
    if |bs| == 0 {
      assert Encode(bs) + t == t;
    } else {
      var s := Encode(bs) + t;
      assert s[0] == Encode(bs)[0] && s[1] == Encode(bs)[1];
      assert s[2..] == Encode(bs[1..]) + t;
      DecodeEncodeThen(bs[1..], t);
      assert [bs[0]] + (bs[1..] + Decode(t)) == bs + Decode(t);
    }
  }

  /** Decoding reads every pair of a well-formed text: the result has exactly half its length. */
  lemma {:induction false} DecodeLength(s: string)
    requires |s| % 2 == 0
    requires forall k :: 0 <= k < |s| ==> IsHexChar(s[k])
    ensures |Decode(s)| == |s| / 2
    decreases |s|
  {
    if |s| >= 2 {
      DecodeLength(s[2..]);
    }
  }

  /** A text in lower-case hex never contains the envelope separator ':'. */
  lemma EncodeHasNoColon(bs: seq<byte>)
    ensures ':' !in Encode(bs)
  {
  }
}
