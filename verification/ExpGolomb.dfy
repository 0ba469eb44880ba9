/**
  The bit reader over a sequence parameter set and its Exp-Golomb codes
  (ITU-T H.264, sections 9.1 and 9.1.1).
 */
module ExpGolomb {
  import opened Bytes

  function Pow2(n: nat): (p: nat)
    ensures p > 0
  {
    if n == 0 then 1 else 2 * Pow2(n - 1)
  }

  /** The number of bits after the leading one of `n`. */
  function Log2(n: nat): (l: nat)
  {
    if n < 2 then 0 else 1 + Log2(n / 2)
  }

  /** Bit `k` of the string, the most significant bit of each byte first. */
  function BitAt(d: bytes, k: nat): (b: nat)
    requires k < 8 * |d|
    ensures b < 2
  {
    d[k / 8] as int / Pow2(7 - k % 8) % 2
  }

  /** The `n` bits from `pos` on, read as one big-endian number. */
  function Value(d: bytes, pos: nat, n: nat): (v: nat)
    requires pos + n <= 8 * |d|
  {
    if n == 0 then 0 else 2 * Value(d, pos, n - 1) + BitAt(d, pos + n - 1)
  }

  /**
    The string holds the code of `k` at `pos`: as many zero bits as `k + 1` has bits after its
    leading one, then the bits of `k + 1`.
   */
  ghost predicate HoldsCode(d: bytes, pos: nat, k: nat) {
    var zeros := Log2(k + 1);
    && pos + 2 * zeros + 1 <= 8 * |d|
    && Value(d, pos, zeros) == 0
    && Value(d, pos + zeros, zeros + 1) == k + 1
  }

  /** The number that stands for a signed value (ITU-T H.264, table 9-3). */
  function SignedCode(v: int): (k: nat) {
    if v > 0 then 2 * v - 1 else -2 * v
  }

  // ---------------------------------------------------------------------------------
  // Arithmetic of codes
  // ---------------------------------------------------------------------------------

  lemma Pow2Is(n: nat)
    ensures Pow2(n + 1) == 2 * Pow2(n)
  {
  }

  lemma {:induction false} Pow2Monotone(a: nat, b: nat)
    requires a <= b
    ensures Pow2(a) <= Pow2(b)
  {
    if a < b {
      Pow2Monotone(a, b - 1);
    }
  }

  lemma {:induction false} Pow2Add(a: nat, b: nat)
    ensures Pow2(a + b) == Pow2(a) * Pow2(b)
  {
    if b > 0 {
      Pow2Add(a, b - 1);
      assert 2 * (Pow2(a) * Pow2(b - 1)) == Pow2(a) * (2 * Pow2(b - 1));
    }
  }

  lemma WordSize()
    ensures Pow2(31) == 0x8000_0000 && Pow2(32) == TWO_32
  {
    assert Pow2(7) == 0x80 && Pow2(8) == 0x100;
    Pow2Add(8, 8);
    Pow2Add(16, 8);
    Pow2Add(24, 7);
    Pow2Add(24, 8);
  }

  lemma ShiftIn(v: nat, b: nat)
    ensures (2 * (v % TWO_32) + b) % TWO_32 == (2 * v + b) % TWO_32
  {
    var q, r := v / 0x1_0000_0000, v % 0x1_0000_0000;
    var s := 2 * r + b;
    assert 2 * v + b == s + 0x1_0000_0000 * (2 * q);
  }

  lemma {:induction false} Log2Bounds(n: nat)
    requires n > 0
    ensures Pow2(Log2(n)) <= n < Pow2(Log2(n) + 1)
  {
    if n >= 2 {
      Log2Bounds(n / 2);
    }
  }

  lemma Log2Is(n: nat, l: nat)
    requires Pow2(l) <= n < Pow2(l + 1)
    ensures Log2(n) == l
  {
    Log2Bounds(n);
    if l < Log2(n) {
      Pow2Monotone(l + 1, Log2(n));
    } else if Log2(n) < l {
      Pow2Monotone(Log2(n) + 1, l);
    }
  }

  lemma {:induction false} ValueBound(d: bytes, pos: nat, n: nat)
    requires pos + n <= 8 * |d|
    ensures Value(d, pos, n) < Pow2(n)
  {
    if n > 0 {
      ValueBound(d, pos, n - 1);
    }
  }

  /** The first bit weighs as much as all the following ones and one more. */
  lemma {:induction false} ValueFirst(d: bytes, pos: nat, n: nat)
    requires pos + n + 1 <= 8 * |d|
    ensures Value(d, pos, n + 1) == BitAt(d, pos) * Pow2(n) + Value(d, pos + 1, n)
  {
    hide BitAt;
    if n > 0 {
      ValueFirst(d, pos, n - 1);
      var b, p := BitAt(d, pos), Pow2(n - 1);
      assert 2 * (b * p) == b * (2 * p);
    } else {
      assert Value(d, pos, 0) == 0;
    }
  }

  /** A zero prefix is zero in each of its bits. */
  lemma {:induction false} ZeroBit(d: bytes, pos: nat, n: nat, k: nat)
    requires pos + n <= 8 * |d| && Value(d, pos, n) == 0 && k < n
    ensures BitAt(d, pos + k) == 0
  {
    if k < n - 1 {
      ZeroBit(d, pos, n - 1, k);
    }
  }

  /** After its zeros a code carries a one. */
  lemma CodeLeads(d: bytes, pos: nat, k: nat)
    requires HoldsCode(d, pos, k)
    ensures BitAt(d, pos + Log2(k + 1)) == 1
  {
    var z := Log2(k + 1);
    Log2Bounds(k + 1);
    ValueFirst(d, pos + z, z);
    ValueBound(d, pos + z + 1, z);
  }

  /** No bit string holds two codes at one position: the code is a prefix code. */
  lemma CodeUnique(d: bytes, pos: nat, j: nat, k: nat)
    requires HoldsCode(d, pos, j) && HoldsCode(d, pos, k)
    ensures j == k
  {
    CodeLeads(d, pos, j);
    CodeLeads(d, pos, k);
    var y, z := Log2(j + 1), Log2(k + 1);
    if y < z {
      ZeroBit(d, pos, z, y);
    } else if z < y {
      ZeroBit(d, pos, y, z);
    }
  }

  /** Zeros that run past `n` bits leave room only for codes with more zeros than that. */
  lemma ManyZeros(d: bytes, pos: nat, n: nat, k: nat)
    requires pos + n <= 8 * |d| && Value(d, pos, n) == 0 && HoldsCode(d, pos, k)
    ensures n <= Log2(k + 1)
  {
    CodeLeads(d, pos, k);
    if Log2(k + 1) < n {
      ZeroBit(d, pos, n, Log2(k + 1));
    }
  }

  /** `n` zeros and then a one settle how long the code is. */
  lemma ZerosSettle(d: bytes, pos: nat, n: nat, k: nat)
    requires pos + n < 8 * |d| && Value(d, pos, n) == 0 && BitAt(d, pos + n) == 1
    requires HoldsCode(d, pos, k)
    ensures Log2(k + 1) == n
  {
    ManyZeros(d, pos, n, k);
    if n < Log2(k + 1) {
      ZeroBit(d, pos, Log2(k + 1), n);
    }
  }

  lemma NoShortCode(d: bytes, pos: nat)
    requires pos + 32 <= 8 * |d| && Value(d, pos, 32) == 0
    ensures forall k: nat | k <= TWO_32 - 2 :: !HoldsCode(d, pos, k)
  {
    hide Pow2, Log2, Value;
    WordSize();
    forall k: nat | k <= TWO_32 - 2 ensures !HoldsCode(d, pos, k) {
      if HoldsCode(d, pos, k) {
        ManyZeros(d, pos, 32, k);
        Log2Bounds(k + 1);
        Pow2Monotone(32, Log2(k + 1));
      }
    }
  }

  lemma NoRoom(d: bytes, pos: nat, n: nat)
    requires (pos + n == 8 * |d| && Value(d, pos, n) == 0) || (n == 0 && pos >= 8 * |d|)
    ensures forall k: nat :: !HoldsCode(d, pos, k)
  {
    forall k: nat ensures !HoldsCode(d, pos, k) {
      if HoldsCode(d, pos, k) {
        ManyZeros(d, pos, n, k);
      }
    }
  }

  lemma Truncated(d: bytes, pos: nat, n: nat)
    requires pos + n < 8 * |d| < pos + 2 * n + 1 && Value(d, pos, n) == 0 && BitAt(d, pos + n) == 1
    ensures forall k: nat :: !HoldsCode(d, pos, k)
  {
    forall k: nat ensures !HoldsCode(d, pos, k) {
      if HoldsCode(d, pos, k) {
        ZerosSettle(d, pos, n, k);
      }
    }
  }

  lemma ValueOfNothing(d: bytes, pos: nat)
    ensures pos <= 8 * |d| ==> Value(d, pos, 0) == 0
  {
  }

  lemma ZeroStep(d: bytes, pos: nat, n: nat)
    requires pos + n < 8 * |d| && Value(d, pos, n) == 0 && BitAt(d, pos + n) == 0
    ensures Value(d, pos, n + 1) == 0
  {
  }

  lemma SingleOne(d: bytes, pos: nat)
    requires pos < 8 * |d| && BitAt(d, pos) == 1
    ensures HoldsCode(d, pos, 0) && Log2(1) == 0
  {
    ValueFirst(d, pos, 0);
  }

  lemma Complete(d: bytes, pos: nat, n: nat)
    requires n < 32 && pos + 2 * n + 1 <= 8 * |d| && Value(d, pos, n) == 0 && BitAt(d, pos + n) == 1
    ensures var k := Pow2(n) - 1 + Value(d, pos + n + 1, n);
            HoldsCode(d, pos, k) && Log2(k + 1) == n && k <= TWO_32 - 2
    ensures Value(d, pos + n + 1, n) < TWO_32
  {
    hide Pow2, Log2, Value;
    WordSize();
    Pow2Monotone(n, 31);
    Pow2Is(n);
    ValueBound(d, pos + n + 1, n);
    ValueFirst(d, pos + n, n);
    Log2Is(Pow2(n) + Value(d, pos + n + 1, n), n);
  }

  lemma SignedCodeInjective(v: int, w: int)
    requires SignedCode(v) == SignedCode(w)
    ensures v == w
  {
  }

  // ---------------------------------------------------------------------------------
  // The reader
  // ---------------------------------------------------------------------------------

  class BitReader {
    const data: bytes
    var pos: nat

    constructor (data: bytes)
      ensures this.data == data && pos == 0
    {
      this.data := data;
      pos := 0;
    }

    method Bit() returns (r: Option<nat>)
      modifies this
      ensures old(pos) < 8 * |data| ==> r == Some(BitAt(data, old(pos))) && pos == old(pos) + 1
      ensures old(pos) >= 8 * |data| ==> r == None && pos == old(pos)
    {
      if pos / 8 >= |data| {
        return None;
      }
      r := Some(data[pos / 8] as int / Pow2(7 - pos % 8) % 2);
      pos := pos + 1;
    }

    /** Reads `n` bits into a 32-bit accumulator. */
    method Bits(n: nat) returns (r: Option<nat>)
      modifies this
      ensures old(pos) + n <= 8 * |data| ==>
                r == Some(Value(data, old(pos), n) % TWO_32) && pos == old(pos) + n
      ensures n > 0 && old(pos) + n > 8 * |data| ==> r == None
    {
      hide BitAt, Pow2;
      var v: nat := 0;
      for i := 0 to n
        invariant pos == old(pos) + i && (i > 0 ==> pos <= 8 * |data|)
        invariant pos <= 8 * |data| ==> v == Value(data, old(pos), i) % TWO_32
      {
        var b := Bit();
        if b.None? {
          return None;
        }
        if pos <= 8 * |data| {
          ShiftIn(Value(data, old(pos), i), b.value);
        }
        v := (2 * v + b.value) % TWO_32;
      }
      return Some(v);
    }

    /**
      Reads an unsigned code. It returns a number exactly when the string holds that number's
      code here, and moves past the code; the largest one is 2^32 - 2, so the 32-bit sum the
      source computes never wraps.
     */
    method Ue() returns (r: Option<nat>)
      modifies this
      ensures r.Some? ==> r.value <= TWO_32 - 2 && HoldsCode(data, old(pos), r.value)
      ensures r.Some? ==> pos == old(pos) + 2 * Log2(r.value + 1) + 1
      ensures r.None? ==> forall k: nat | k <= TWO_32 - 2 :: !HoldsCode(data, old(pos), k)
    {
      hide BitAt, Pow2, Log2, Value, HoldsCode;
      var leading: nat := 0;
      ValueOfNothing(data, pos);
      var b := Bit();
      while b == Some(0)
        invariant leading <= 31
        invariant b.Some? ==> old(pos) + leading + 1 == pos <= 8 * |data| && b.value == BitAt(data, pos - 1)
        invariant b.None? ==> old(pos) + leading == 8 * |data| || (leading == 0 && old(pos) >= 8 * |data|)
        invariant old(pos) + leading <= 8 * |data| ==> Value(data, old(pos), leading) == 0
        decreases 32 - leading
      {
        ZeroStep(data, old(pos), leading);
        leading := leading + 1;
        if leading > 31 {
          NoShortCode(data, old(pos));
          return None;
        }
        b := Bit();
      }
      if b.None? {
        NoRoom(data, old(pos), leading);
        return None;
      }
      if leading == 0 {
        SingleOne(data, old(pos));
        return Some(0);
      }
      var suffix := Bits(leading);
      if suffix.None? {
        Truncated(data, old(pos), leading);
        return None;
      }
      Complete(data, old(pos), leading);
      r := Some(Pow2(leading) - 1 + suffix.value);
    }

    /** Reads a signed code: exactly the value whose number stands here. */
    method Se() returns (r: Option<int>)
      modifies this
      ensures r.Some? ==> -0x8000_0000 < r.value < 0x8000_0000 && HoldsCode(data, old(pos), SignedCode(r.value))
      ensures r.Some? ==> pos == old(pos) + 2 * Log2(SignedCode(r.value) + 1) + 1
      ensures r.None? ==> forall v: int | SignedCode(v) <= TWO_32 - 2 :: !HoldsCode(data, old(pos), SignedCode(v))
    {
      hide Pow2, Log2, Value, HoldsCode;
      var k := Ue();
      if k.None? {
        return None;
      }
      var mag: int := (k.value + 1) / 2;
      return Some(if k.value % 2 == 1 then mag else -mag);
    }
  }
}
