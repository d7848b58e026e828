/**
 * The byte view of Go strings. A Go string decoded by `encoding/json` is always valid UTF-8
 * (invalid input is replaced by U+FFFD), so the model keeps such strings as sequences of
 * Unicode scalar values and obtains their bytes (`[]byte(s)`) by UTF-8 encoding.
 * `Valid` is `utf8.ValidString` on bytes, using the same accept ranges as Go.
 */
module Utf8 {
  import opened Basics

  predicate Cont(b: byte) { 0x80 <= b <= 0xBF }

  /** UTF-8 encoding of one scalar value. */
  function EncodeChar(c: char): (bs: seq<byte>)
    ensures 1 <= |bs| <= 4
  {
    var n := c as int;
    if n < 0x80 then [n]
    else if n < 0x800 then [0xC0 + n / 0x40, 0x80 + n % 0x40]
    else if n < 0x1_0000 then [0xE0 + n / 0x1000, 0x80 + (n / 0x40) % 0x40, 0x80 + n % 0x40]
    else [0xF0 + n / 0x4_0000, 0x80 + (n / 0x1000) % 0x40, 0x80 + (n / 0x40) % 0x40, 0x80 + n % 0x40]
  }

  /** `[]byte(s)` for a string of scalar values. */
  function Encode(s: string): (bs: seq<byte>)
    ensures |s| <= |bs| <= 4 * |s|
  {
    if s == [] then [] else EncodeChar(s[0]) + Encode(s[1..])
  }

  /** `utf8.ValidString`: the lead byte decides the length and the range of the second byte. */
  function Valid(b: seq<byte>): (ok: bool)
    ensures ok ==> forall i :: 0 <= i < |b| ==> b[i] != 0xC0 && b[i] != 0xC1 && b[i] <= 0xF4
    decreases |b|
  {
    if b == [] then true
    else
      var x := b[0];
      if x < 0x80 then Valid(b[1..])
      else if 0xC2 <= x <= 0xDF then
        |b| >= 2 && Cont(b[1]) && Valid(b[2..])
      else if 0xE0 <= x <= 0xEF then
        var lo := if x == 0xE0 then 0xA0 else 0x80;
        var hi := if x == 0xED then 0x9F else 0xBF;
        |b| >= 3 && lo <= b[1] <= hi && Cont(b[2]) && Valid(b[3..])
      else if 0xF0 <= x <= 0xF4 then
        var lo := if x == 0xF0 then 0x90 else 0x80;
        var hi := if x == 0xF4 then 0x8F else 0xBF;
        |b| >= 4 && lo <= b[1] <= hi && Cont(b[2]) && Cont(b[3]) && Valid(b[4..])
      else false
  }

  lemma TwoByteRanges(n: int)
    requires 0x80 <= n < 0x800
    ensures 0xC2 <= 0xC0 + n / 0x40 <= 0xDF
  {
  }

  lemma ThreeByteRanges(n: int)
    requires 0x800 <= n < 0x1_0000
    requires !(0xD800 <= n <= 0xDFFF)
    ensures 0xE0 <= 0xE0 + n / 0x1000 <= 0xEF
    ensures n / 0x1000 == 0 ==> 0xA0 <= 0x80 + (n / 0x40) % 0x40
    ensures n / 0x1000 == 0xD ==> 0x80 + (n / 0x40) % 0x40 <= 0x9F
  {
    if n / 0x1000 == 0 {
      assert n / 0x40 == 0x20 + (n - 0x800) / 0x40;
    }
    if n / 0x1000 == 0xD {
      assert n / 0x40 == 0x340 + (n - 0xD000) / 0x40;
    }
  }

  lemma FourByteRanges(n: int)
    requires 0x1_0000 <= n <= 0x10_FFFF
    ensures 0xF0 <= 0xF0 + n / 0x4_0000 <= 0xF4
    ensures n / 0x4_0000 == 0 ==> 0x90 <= 0x80 + (n / 0x1000) % 0x40
    ensures n / 0x4_0000 == 4 ==> 0x80 + (n / 0x1000) % 0x40 <= 0x8F
  {
    if n / 0x4_0000 == 0 {
      assert n / 0x1000 == 0x10 + (n - 0x1_0000) / 0x1000;
    }
    if n / 0x4_0000 == 4 {
      assert n / 0x1000 == 0x100 + (n - 0x10_0000) / 0x1000;
    }
  }

  /** Prepending the encoding of one scalar to valid bytes keeps them valid. */
  lemma EncodeCharValid(c: char, rest: seq<byte>)
    requires Valid(rest)
    ensures Valid(EncodeChar(c) + rest)
  {
    var n := c as int;
    var b := EncodeChar(c) + rest;
    if n < 0x80 {
      assert b[1..] == rest;
    } else if n < 0x800 {
      TwoByteRanges(n);
      assert b[2..] == rest;
    } else if n < 0x1_0000 {
      ThreeByteRanges(n);
      assert b[3..] == rest;
    } else {
      FourByteRanges(n);
      assert b[4..] == rest;
    }
  }

  /** Every string's byte view is valid UTF-8: `utf8.ValidString` accepts every decoded string. */
  lemma {:induction false} EncodeValid(s: string)
    ensures Valid(Encode(s))
  {
    if s != [] {
      EncodeValid(s[1..]);
      EncodeCharValid(s[0], Encode(s[1..]));
    }
  }
}
