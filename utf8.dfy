/** UTF-8 as `str.encode()` produces it (section 3 of RFC 3629), and the
    non-overlapping, left-to-right count of `bytes.count`. */
module Utf8 {

  type Byte = b: int | 0 <= b < 256

  predicate IsContinuation(b: Byte) { 0x80 <= b < 0xC0 }

  /** The UTF-8 encoding of one scalar value: one byte below U+0080, then
      two, three or four bytes, a lead byte followed by continuation bytes
      that carry six bits each. */
  function EncodeChar(c: char): (bs: seq<Byte>)
    ensures 1 <= |bs| <= 4
    ensures forall i :: 1 <= i < |bs| ==> IsContinuation(bs[i])
    ensures |bs| == 1 <==> c as int < 0x80
    ensures |bs| > 1 ==> 0xC2 <= bs[0] < 0xF5
  {
    var n := c as int;
    if n < 0x80 then [n]
    else if n < 0x800 then [0xC0 + n / 0x40, 0x80 + n % 0x40]
    else if n < 0x10000 then [0xE0 + n / 0x1000, 0x80 + (n / 0x40) % 0x40, 0x80 + n % 0x40]
    else [0xF0 + n / 0x40000, 0x80 + (n / 0x1000) % 0x40, 0x80 + (n / 0x40) % 0x40, 0x80 + n % 0x40]
  }

  /** `str.encode()`: the encodings of the characters, in order. */
  function Encode(s: string): seq<Byte> {
    if |s| == 0 then [] else EncodeChar(s[0]) + Encode(s[1..])
  }

  /** `bytes.count(pat)`: occurrences found scanning left to right, each
      search resuming after the previous match. */
  function Count(bs: seq<Byte>, pat: seq<Byte>): nat
    requires |pat| > 0
    decreases |bs|
  {
    if |bs| < |pat| then 0
    else if bs[..|pat|] == pat then 1 + Count(bs[|pat|..], pat)
    else Count(bs[1..], pat)
  }

  /** A byte that cannot start the pattern is stepped over. */
  lemma SkipByte(bs: seq<Byte>, pat: seq<Byte>)
    requires |pat| > 0 && |bs| > 0 && bs[0] != pat[0]
    ensures Count(bs, pat) == Count(bs[1..], pat)
  {
    if |bs| >= |pat| {
      assert bs[..|pat|][0] != pat[0];
    }
  }
}
