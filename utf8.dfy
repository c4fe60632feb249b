/**
 * The bytes a JavaScript string turns into when the `crc` package hashes it:
 * `Buffer.from(string)`, whose default encoding is UTF-8.
 */
module Utf8 {

  newtype byte = x: int | 0 <= x < 256

  predicate IsContinuation(b: byte) {
    0x80 <= b < 0xC0
  }

  /** The code point a well-formed UTF-8 sequence of one to four bytes stands for. */
  function CodePointOf(r: seq<byte>): int
    requires 1 <= |r| <= 4
  {
    if |r| == 1 then r[0] as int
    else if |r| == 2 then (r[0] as int - 0xC0) * 64 + (r[1] as int - 0x80)
    else if |r| == 3 then (r[0] as int - 0xE0) * 4096 + (r[1] as int - 0x80) * 64 + (r[2] as int - 0x80)
    else (r[0] as int - 0xF0) * 262144 + (r[1] as int - 0x80) * 4096 + (r[2] as int - 0x80) * 64 + (r[3] as int - 0x80)
  }

  /** UTF-8 of one Unicode scalar value: the shortest form, lead byte marking the
      length, continuation bytes after it, and the code point recoverable. */
  function EncodeChar(c: char): (r: seq<byte>)
    ensures 1 <= |r| <= 4
    ensures |r| == 1 <==> c as int < 0x80
    ensures |r| == 2 <==> 0x80 <= c as int < 0x800
    ensures |r| == 3 <==> 0x800 <= c as int < 0x10000
    ensures |r| == 1 ==> r[0] < 0x80
    ensures |r| == 2 ==> 0xC0 <= r[0] < 0xE0
    ensures |r| == 3 ==> 0xE0 <= r[0] < 0xF0
    ensures |r| == 4 ==> 0xF0 <= r[0] < 0xF8
    ensures forall k :: 1 <= k < |r| ==> IsContinuation(r[k])
    ensures CodePointOf(r) == c as int
  {
    var n := c as int;
    if n < 0x80 then [n as byte]
    else if n < 0x800 then EncodeTwo(n)
    else if n < 0x10000 then EncodeThree(n)
    else EncodeFour(n)
  }

  function EncodeTwo(n: nat): (r: seq<byte>)
    requires 0x80 <= n < 0x800
    ensures |r| == 2 && 0xC0 <= r[0] < 0xE0 && IsContinuation(r[1])
    ensures CodePointOf(r) == n
  {
    [(0xC0 + n / 64) as byte, (0x80 + n % 64) as byte]
  }

  function EncodeThree(n: nat): (r: seq<byte>)
    requires 0x800 <= n < 0x10000
    ensures |r| == 3 && 0xE0 <= r[0] < 0xF0 && IsContinuation(r[1]) && IsContinuation(r[2])
    ensures CodePointOf(r) == n
  {
    var low := n % 4096;
    assert n == n / 4096 * 4096 + low;
    assert low == low / 64 * 64 + low % 64;
    assert n % 64 == low % 64 && n / 64 % 64 == low / 64;
    [(0xE0 + n / 4096) as byte, (0x80 + low / 64) as byte, (0x80 + low % 64) as byte]
  }

  function EncodeFour(n: nat): (r: seq<byte>)
    requires 0x10000 <= n < 0x110000
    ensures |r| == 4 && 0xF0 <= r[0] < 0xF8
    ensures IsContinuation(r[1]) && IsContinuation(r[2]) && IsContinuation(r[3])
    ensures CodePointOf(r) == n
  {
    var low := n % 262144;
    var mid := low % 4096;
    assert n == n / 262144 * 262144 + low;
    assert low == low / 4096 * 4096 + mid;
    assert mid == mid / 64 * 64 + mid % 64;
    [(0xF0 + n / 262144) as byte, (0x80 + low / 4096) as byte, (0x80 + mid / 64) as byte, (0x80 + mid % 64) as byte]
  }

  /** `Buffer.from(s)`: the characters' encodings, in order; one to four bytes
      per character. */
  function Encode(s: string): (r: seq<byte>)
    ensures |s| <= |r| <= 4 * |s|
    decreases |s|
  {
    if s == [] then [] else EncodeChar(s[0]) + Encode(s[1..])
  }

  /** Encoding distributes over concatenation. */
  lemma {:induction false} EncodeAppend(a: string, b: string)
    ensures Encode(a + b) == Encode(a) + Encode(b)
    decreases |a|
  {
    if a != [] {
      assert (a + b)[0] == a[0];
      assert (a + b)[1..] == a[1..] + b;
      EncodeAppend(a[1..], b);
    } else {
      assert a + b == b;
    }
  }

  predicate IsAscii(s: string) {
    forall i :: 0 <= i < |s| ==> s[i] as int < 0x80
  }

  /** An ASCII string encodes to one byte per character, each the character's code. */
  lemma {:induction false} EncodeAscii(s: string)
    requires IsAscii(s)
    ensures |Encode(s)| == |s|
    ensures forall i :: 0 <= i < |s| ==> Encode(s)[i] as int == s[i] as int
    decreases |s|
  {
    if s != [] {
      assert IsAscii(s[1..]) by {
        forall i | 0 <= i < |s| - 1 ensures s[1..][i] as int < 0x80 {
          assert s[1..][i] == s[i + 1];
        }
      }
      EncodeAscii(s[1..]);
      forall i | 0 <= i < |s| ensures Encode(s)[i] as int == s[i] as int {
        if i > 0 {
          assert Encode(s)[i] == Encode(s[1..])[i - 1];
          assert s[1..][i - 1] == s[i];
        }
      }
    }
  }
}
