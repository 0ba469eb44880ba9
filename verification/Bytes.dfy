/** Bytes, big-endian fields and byte-string concatenation: the vocabulary every other module shares. */
module Bytes {

  type byte = b: int | 0 <= b < 0x100

  type bytes = seq<byte>

  const TWO_16: int := 0x1_0000
  const TWO_24: int := 0x100_0000
  const TWO_32: int := 0x1_0000_0000

  datatype Option<+T> = None | Some(value: T)

  datatype Result<+T, +E> = Ok(value: T) | Err(error: E)

  function Max(a: int, b: int): int {
    if a < b then b else a
  }

  /** Each encoder keeps only the low bits of its argument, as an integer cast does. */
  function Be16(n: nat): (r: bytes)
    ensures |r| == 2
  {
    [n / 0x100 % 0x100, n % 0x100]
  }

  function Be24(n: nat): (r: bytes)
    ensures |r| == 3
  {
    [n / 0x1_0000 % 0x100, n / 0x100 % 0x100, n % 0x100]
  }

  function Be32(n: nat): (r: bytes)
    ensures |r| == 4
  {
    [n / 0x100_0000 % 0x100, n / 0x1_0000 % 0x100, n / 0x100 % 0x100, n % 0x100]
  }

  function Le32(n: nat): (r: bytes)
    ensures |r| == 4
  {
    [n % 0x100, n / 0x100 % 0x100, n / 0x1_0000 % 0x100, n / 0x100_0000 % 0x100]
  }

  function Be64(n: nat): (r: bytes)
    ensures |r| == 8
  {
    Be32(n / TWO_32) + Be32(n % TWO_32)
  }

  function Rd16(s: bytes): (n: nat)
    requires |s| == 2
    ensures n < TWO_16
  {
    s[0] as int * 0x100 + s[1]
  }

  function Rd24(s: bytes): (n: nat)
    requires |s| == 3
    ensures n < TWO_24
  {
    s[0] as int * 0x1_0000 + s[1] as int * 0x100 + s[2]
  }

  function Rd32(s: bytes): (n: nat)
    requires |s| == 4
    ensures n < TWO_32
  {
    s[0] as int * 0x100_0000 + s[1] as int * 0x1_0000 + s[2] as int * 0x100 + s[3]
  }

  function RdLe32(s: bytes): (n: nat)
    requires |s| == 4
    ensures n < TWO_32
  {
    s[0] as int + s[1] as int * 0x100 + s[2] as int * 0x1_0000 + s[3] as int * 0x100_0000
  }

  lemma Rd16Be16(n: nat)
    requires n < TWO_16
    ensures Rd16(Be16(n)) == n
  {
  }

  lemma Rd24Be24(n: nat)
    requires n < TWO_24
    ensures Rd24(Be24(n)) == n
  {
    assert n / 0x1_0000 == n / 0x100 / 0x100;
  }

  lemma Rd32Be32(n: nat)
    requires n < TWO_32
    ensures Rd32(Be32(n)) == n && RdLe32(Le32(n)) == n
  {
    assert n / 0x1_0000 == n / 0x100 / 0x100;
    assert n / 0x100_0000 == n / 0x100 / 0x100 / 0x100;
  }

  lemma Be24Rd24(raw: bytes)
    requires |raw| == 3
    ensures Be24(Rd24(raw)) == raw
  {
    var a: int, b: int, c: int := raw[0], raw[1], raw[2];
    var n := Rd24(raw);
    assert n == a * 0x1_0000 + b * 0x100 + c;
    assert n / 0x100 == a * 0x100 + b && n % 0x100 == c;
    assert n / 0x1_0000 == a && n / 0x100 % 0x100 == b;
  }

  lemma Be32Rd32(s: bytes)
    requires |s| == 4
    ensures Be32(Rd32(s)) == s
  {
    var n := Rd32(s);
    assert n == s[0] as int * 0x100_0000 + (s[1] as int * 0x1_0000 + s[2] as int * 0x100 + s[3]);
    assert n / 0x100_0000 == s[0];
    assert n / 0x1_0000 == s[0] as int * 0x100 + s[1];
    assert n / 0x100 == s[0] as int * 0x1_0000 + s[1] as int * 0x100 + s[2];
  }

  /** The bytes of an ASCII text. */
  function Ascii(s: string): bytes {
    seq(|s|, i requires 0 <= i < |s| => s[i] as int % 0x100)
  }

  /** The concatenation of a list of byte strings. */
  function Flat(ss: seq<bytes>): (r: bytes)
  {
    if ss == [] then [] else ss[0] + Flat(ss[1..])
  }

  /** Cutting a known first part off the rest of a byte string. */
  lemma Cut(d: bytes, pos: nat, head: bytes, tail: bytes)
    requires pos <= |d| && d[pos..] == head + tail
    ensures pos + |head| <= |d|
    ensures d[pos..pos + |head|] == head && d[pos + |head|..] == tail
  {
    assert d[pos..pos + |head|] == d[pos..][..|head|];
    assert d[pos + |head|..] == d[pos..][|head|..];
  }
}
