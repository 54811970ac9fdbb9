/** Octets, exclusive-or and big-endian 32-bit words. */
module Bytes {

  type byte = b: int | 0 <= b < 256
  type bytes = seq<byte>

  const TWO_TO_32: nat := 0x1_0000_0000
  type u32 = n: int | 0 <= n < 0x1_0000_0000

  function Pow2(n: nat): (p: nat)
    ensures p >= 1
  {
    if n == 0 then 1 else 2 * Pow2(n - 1)
  }

  /** Exclusive-or of the low `n` bits: each bit is the sum of the two bits modulo two. */
  function XorBits(a: nat, b: nat, n: nat): (r: nat)
    ensures r < Pow2(n)
  {
    if n == 0 then 0 else 2 * XorBits(a / 2, b / 2, n - 1) + (a + b) % 2
  }

  lemma BitStep(q: nat, a: nat, b: nat)
    ensures (2 * q + (a + b) % 2) / 2 == q && (2 * q + (a + b) % 2 + b) % 2 == a % 2
  {
  }

  lemma {:induction false} XorBitsUndo(a: nat, b: nat, n: nat)
    requires a < Pow2(n)
    ensures XorBits(XorBits(a, b, n), b, n) == a
  {
    if n == 0 {
    } else {
      XorBitsUndo(a / 2, b / 2, n - 1);
      BitStep(XorBits(a / 2, b / 2, n - 1), a, b);
    }
  }

  lemma {:induction false} Pow2Eight()
    ensures Pow2(8) == 256
  {
    assert Pow2(2) == 4;
    assert Pow2(4) == 16;
    assert Pow2(6) == 64;
  }

  function Xor(a: byte, b: byte): byte {
    Pow2Eight();
    XorBits(a, b, 8)
  }

  lemma {:induction false} XorUndo(a: byte, b: byte)
    ensures Xor(Xor(a, b), b) == a
  {
    Pow2Eight();
    XorBitsUndo(a, b, 8);
  }

  /** What the bits of an octet weigh. */
  const WEIGHTS: seq<int> := [1, 2, 4, 8, 16, 32, 64, 128]

  /** Each of the eight bits of `r` is set exactly when those of `a` and `b` differ. */
  predicate ExclusiveOr(r: byte, a: byte, b: byte) {
    forall k | 0 <= k < 8 :: r / WEIGHTS[k] % 2 == 1 <==> a / WEIGHTS[k] % 2 != b / WEIGHTS[k] % 2
  }

  /** The lowest bit, and what the remaining bits are. */
  lemma {:induction false} XorLowest(a: nat, b: nat, n: nat)
    requires n > 0
    ensures XorBits(a, b, n) % 2 == 1 <==> a % 2 != b % 2
    ensures XorBits(a, b, n) / 2 == XorBits(a / 2, b / 2, n - 1)
  {
    LowBit(XorBits(a / 2, b / 2, n - 1), (a + b) % 2);
    Parity(a, b);
  }

  lemma LowBit(q: nat, bit: nat)
    requires bit < 2
    ensures (2 * q + bit) / 2 == q && (2 * q + bit) % 2 == bit
  {
  }

  lemma Parity(a: nat, b: nat)
    ensures (a + b) % 2 == 1 <==> a % 2 != b % 2
  {
  }

  lemma {:induction false} XorBitAt(a: nat, b: nat, n: nat, k: nat)
    requires k < n && k < 8
    ensures XorBits(a, b, n) / WEIGHTS[k] % 2 == 1 <==> a / WEIGHTS[k] % 2 != b / WEIGHTS[k] % 2
  {
    XorLowest(a, b, n);
    if k == 0 {
      assert WEIGHTS[0] == 1;
    } else {
      XorBitAt(a / 2, b / 2, n - 1, k - 1);
      Halves(XorBits(a, b, n), k);
      Halves(a, k);
      Halves(b, k);
    }
  }

  lemma {:induction false} Halves(n: nat, k: nat)
    requires 0 < k < 8
    ensures n / WEIGHTS[k] == n / 2 / WEIGHTS[k - 1]
  {
    assert WEIGHTS[k] == 2 * WEIGHTS[k - 1];
    assert n / 2 / 1 == n / 2 && n / 2 / 2 == n / 4 && n / 2 / 4 == n / 8 && n / 2 / 8 == n / 16;
    assert n / 2 / 16 == n / 32 && n / 2 / 32 == n / 64 && n / 2 / 64 == n / 128;
  }

  lemma {:induction false} XorIsExclusiveOr(a: byte, b: byte)
    ensures ExclusiveOr(Xor(a, b), a, b)
  {
    forall k | 0 <= k < 8
      ensures Xor(a, b) / WEIGHTS[k] % 2 == 1 <==> a / WEIGHTS[k] % 2 != b / WEIGHTS[k] % 2
    {
      XorBitAt(a, b, 8, k);
    }
  }

  /** The value of `htonl` as it lies in memory: most significant octet first. */
  function BigEndian(n: u32): (b: bytes)
    ensures |b| == 4
  {
    [n / 0x100_0000, n / 0x1_0000 % 256, n / 256 % 256, n % 256]
  }

  function FromBigEndian(b: bytes): u32
    requires |b| == 4
  {
    var b0: int, b1: int, b2: int, b3: int := b[0], b[1], b[2], b[3];
    b0 * 0x100_0000 + b1 * 0x1_0000 + b2 * 256 + b3
  }

  lemma {:induction false} WordRoundTrip(n: u32)
    ensures FromBigEndian(BigEndian(n)) == n
  {
    var k := n / 256;
    var m := k / 256;
    assert n == 256 * k + n % 256 && k == 256 * m + k % 256 && m == 256 * (m / 256) + m % 256;
    assert n / 0x1_0000 == m && n / 0x100_0000 == m / 256;
  }

  /** The four octets, by what they weigh. */
  predicate IsWord(b0: byte, b1: byte, b2: byte, b3: byte, n: int) {
    b0 * 16777216 + b1 * 65536 + b2 * 256 + b3 == n
  }

  lemma {:induction false} BigEndianOctets(n: u32)
    ensures var b := BigEndian(n); IsWord(b[0], b[1], b[2], b[3], n)
  {
    WordRoundTrip(n);
  }

  lemma {:induction false} OctetsRoundTrip(b: bytes)
    requires |b| == 4
    ensures BigEndian(FromBigEndian(b)) == b
  {
    var n := FromBigEndian(b);
    var b0: int, b1: int, b2: int := b[0], b[1], b[2];
    assert n / 256 == b0 * 0x1_0000 + b1 * 256 + b2;
    assert n / 0x1_0000 == b0 * 256 + b1;
  }

  lemma {:induction false} BigEndianInjective(m: u32, n: u32)
    requires BigEndian(m) == BigEndian(n)
    ensures m == n
  {
    WordRoundTrip(m);
    WordRoundTrip(n);
  }
}
