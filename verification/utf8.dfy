/**
 * UTF-8, the encoding `uniqueID.data(using: .utf8)` applies to a keychain entry's identifier.
 * The store relies on one fact about it: different strings give different bytes.
 */
module Utf8 {

  newtype byte = x: int | 0 <= x < 0x100

  /** How many bytes a sequence starting with `lead` occupies. */
  function SequenceLength(lead: byte): nat {
    if lead < 0x80 then 1
    else if lead < 0xE0 then 2
    else if lead < 0xF0 then 3
    else 4
  }

  /** The one- to four-byte sequence of one Unicode scalar value. */
  function EncodeScalar(c: char): (bs: seq<byte>)
    ensures 1 <= |bs| <= 4
    ensures |bs| == SequenceLength(bs[0])
    ensures forall i :: 1 <= i < |bs| ==> 0x80 <= bs[i] < 0xC0
  {
    var n := c as int;
    if n < 0x80 then
      [n as byte]
    else if n < 0x800 then
      [(0xC0 + n / 0x40) as byte, (0x80 + n % 0x40) as byte]
    else if n < 0x1_0000 then
      [(0xE0 + n / 0x1000) as byte, (0x80 + n / 0x40 % 0x40) as byte, (0x80 + n % 0x40) as byte]
    else
      [(0xF0 + n / 0x4_0000) as byte, (0x80 + n / 0x1000 % 0x40) as byte,
       (0x80 + n / 0x40 % 0x40) as byte, (0x80 + n % 0x40) as byte]
  }

  /** The code point a well-formed sequence of one to four bytes stands for. */
  function ScalarValue(bs: seq<byte>): int
    requires 1 <= |bs| <= 4
  {
    if |bs| == 1 then bs[0] as int
    else if |bs| == 2 then (bs[0] as int - 0xC0) * 0x40 + (bs[1] as int - 0x80)
    else if |bs| == 3 then
      (bs[0] as int - 0xE0) * 0x1000 + (bs[1] as int - 0x80) * 0x40 + (bs[2] as int - 0x80)
    else
      (bs[0] as int - 0xF0) * 0x4_0000 + (bs[1] as int - 0x80) * 0x1000
        + (bs[2] as int - 0x80) * 0x40 + (bs[3] as int - 0x80)
  }

  /** Decoding one encoded scalar gives its code point back. */
  lemma DecodeEncodeScalar(c: char)
    ensures ScalarValue(EncodeScalar(c)) == c as int
  {
    var n := c as int;
    assert n == n / 0x40 * 0x40 + n % 0x40;
    assert n / 0x40 == n / 0x1000 * 0x40 + n / 0x40 % 0x40;
    assert n / 0x1000 == n / 0x4_0000 * 0x40 + n / 0x1000 % 0x40;
  }

  /** Two scalars with the same encoding are the same scalar. */
  lemma ScalarInjective(c: char, d: char)
    requires EncodeScalar(c) == EncodeScalar(d)
    ensures c == d
  {
    DecodeEncodeScalar(c);
    DecodeEncodeScalar(d);
  }

  /** The UTF-8 bytes of a string: one to four bytes per character, in order. */
  function Encode(s: string): (bs: seq<byte>)
    ensures |s| <= |bs| <= 4 * |s|
  {
    if s == [] then [] else EncodeScalar(s[0]) + Encode(s[1..])
  }

  /** UTF-8 is injective: distinct strings never share their bytes. */
  lemma {:induction false} EncodeInjective(s: string, t: string)
    requires Encode(s) == Encode(t)
    ensures s == t
  {
    if s != [] && t != [] {
      var e := Encode(s);
      var a, b := EncodeScalar(s[0]), EncodeScalar(t[0]);
      assert e == a + Encode(s[1..]) && e == b + Encode(t[1..]);
      assert a[0] == e[0] == b[0];
      assert a == e[..|a|] == b;
      ScalarInjective(s[0], t[0]);
      assert Encode(s[1..]) == e[|a|..] == Encode(t[1..]);
      EncodeInjective(s[1..], t[1..]);
      assert s == [s[0]] + s[1..] && t == [t[0]] + t[1..];
    }
  }
}
