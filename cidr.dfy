// IPv4 address arithmetic on prefix-length (CIDR) blocks, as in
// section 3.1 of RFC 4632: a block with prefix length m covers
// 2^(32-m) consecutive addresses starting at a multiple of that size.
module Cidr {

  /** Number of IPv4 addresses. */
  const AddressSpace: nat := 0x1_0000_0000

  type Address = a: int | 0 <= a < AddressSpace

  type PrefixLength = m: int | 0 <= m <= 32

  // ---------------------------------------------------------------------
  // Multiplication and Euclidean division facts the solver needs spelled out.

  lemma MulAtLeast(x: int, s: int)
    requires x >= 1 && s > 0
    ensures x * s >= s
  {
  }

  lemma PositiveFactor(d: int, s: int)
    requires s > 0 && d * s > 0
    ensures d >= 1
  {
  }

  lemma Distrib(x: int, y: int, s: int)
    ensures x * s - y * s == (x - y) * s
  {
  }

  lemma MulLe(a: int, b: int, s: int)
    requires 0 <= a <= b && s >= 0
    ensures a * s <= b * s
  {
    Distrib(b, a, s);
  }

  /** Quotient and remainder are determined by `a == q * s + r` with `0 <= r < s`. */
  lemma DivModUnique(a: int, s: int, q: int, r: int)
    requires s > 0 && a == q * s + r && 0 <= r < s
    ensures a / s == q && a % s == r
  {
    var q0, r0 := a / s, a % s;
    assert a == q0 * s + r0;
    Distrib(q, q0, s);
    if q > q0 {
      MulAtLeast(q - q0, s);
    } else if q < q0 {
      MulAtLeast(q0 - q, s);
      Distrib(q0, q, s);
    }
  }

  lemma ModAtMost(a: int, s: int)
    requires s > 0
    ensures a >= 0 ==> a % s <= a
  {
    if 0 <= a < s {
      DivModUnique(a, s, 0, a);
    }
  }

  lemma MulMod(k: int, n: int)
    requires n > 0
    ensures (k * n) % n == 0 && (k * n) / n == k
  {
    DivModUnique(k * n, n, k, 0);
  }

  /** A multiple of a larger size is a multiple of every size dividing it. */
  lemma ModTransitive(x: int, big: int, small: int)
    requires small > 0 && big > 0
    requires big % small == 0
    requires x % big == 0
    ensures x % small == 0
  {
    var k := big / small;
    var j := x / big;
    assert big == k * small;
    assert x == j * big;
    assert x == (j * k) * small;
    MulMod(j * k, small);
  }

  /** Two distinct multiples of s are at least s apart. */
  lemma MultiplesApart(x: int, y: int, s: int)
    requires s > 0
    requires x % s == 0 && y % s == 0
    requires x < y
    ensures x + s <= y
  {
    var p, q := x / s, y / s;
    assert x == p * s && y == q * s;
    Distrib(q, p, s);
    PositiveFactor(q - p, s);
    MulAtLeast(q - p, s);
  }

  /** Two multiples of s that hold the same address in their blocks are equal. */
  lemma SameBlock(x: int, y: int, a: int, s: int)
    requires s > 0
    requires x % s == 0 && y % s == 0
    requires x <= a < x + s && y <= a < y + s
    ensures x == y
  {
    if x < y {
      MultiplesApart(x, y, s);
    } else if y < x {
      MultiplesApart(y, x, s);
    }
  }

  /** There is one multiple of s in (e - s, e] + s: the first boundary above e is unique. */
  lemma BoundaryUnique(x: int, y: int, e: int, s: int)
    requires s > 0 && x % s == 0 && y % s == 0
    requires x - s <= e < x && y - s <= e < y
    ensures x == y
  {
    AlignedAdd(x, -1, s);
    AlignedAdd(y, -1, s);
    SameBlock(x - s, y - s, e, s);
  }

  // ---------------------------------------------------------------------
  // Powers of two and block sizes.

  function Pow2(n: nat): (r: nat)
    ensures r >= 1
  {
    if n == 0 then 1 else 2 * Pow2(n - 1)
  }

  lemma {:induction false} Pow2Add(a: nat, b: nat)
    ensures Pow2(a + b) == Pow2(a) * Pow2(b)
  {
    if a > 0 {
      Pow2Add(a - 1, b);
    }
  }

  lemma Pow2Monotone(a: nat, b: nat)
    requires a <= b
    ensures Pow2(a) <= Pow2(b)
    ensures Pow2(b) % Pow2(a) == 0
  {
    Pow2Add(b - a, a);
    MulAtLeast(Pow2(b - a), Pow2(a));
    MulMod(Pow2(b - a), Pow2(a));
  }

  lemma Pow2Of32()
    ensures Pow2(32) == AddressSpace
  {
    assert Pow2(1) == 2;
    Pow2Add(1, 1);
    Pow2Add(2, 2);
    Pow2Add(4, 4);
    Pow2Add(8, 8);
    Pow2Add(16, 16);
  }

  /** Number of addresses in a block of prefix length m. */
  function BlockSize(m: PrefixLength): (r: nat)
    ensures 1 <= r <= AddressSpace
    ensures AddressSpace % r == 0
  {
    Pow2Of32();
    Pow2Monotone(32 - m, 32);
    Pow2(32 - m)
  }

  /** A block one bit shorter is twice as large. */
  lemma BlockSizeStep(m: PrefixLength)
    requires m < 32
    ensures BlockSize(m) == 2 * BlockSize(m + 1)
  {
  }

  /** Sizes of the blocks from /16 to /32. */
  lemma SmallBlockSizes()
    ensures BlockSize(32) == 1 && BlockSize(31) == 2 && BlockSize(30) == 4 && BlockSize(29) == 8
    ensures BlockSize(28) == 16 && BlockSize(27) == 32 && BlockSize(26) == 64 && BlockSize(25) == 128
    ensures BlockSize(24) == 256 && BlockSize(23) == 512 && BlockSize(22) == 1024 && BlockSize(21) == 2048
    ensures BlockSize(20) == 4096 && BlockSize(19) == 8192 && BlockSize(18) == 16384 && BlockSize(17) == 32768
    ensures BlockSize(16) == 65536
  {
    assert Pow2(0) == 1;
    assert Pow2(1) == 2;
    assert Pow2(2) == 4;
    assert Pow2(3) == 8;
    assert Pow2(4) == 16;
    assert Pow2(5) == 32;
    assert Pow2(6) == 64;
    assert Pow2(7) == 128;
    assert Pow2(8) == 256;
    assert Pow2(9) == 512;
    assert Pow2(10) == 1024;
    assert Pow2(11) == 2048;
    assert Pow2(12) == 4096;
    assert Pow2(13) == 8192;
    assert Pow2(14) == 16384;
    assert Pow2(15) == 32768;
    assert Pow2(16) == 65536;
  }

  /** Sizes of the blocks from /0 to /15. */
  lemma LargeBlockSizes()
    ensures BlockSize(0) == 4294967296
    ensures BlockSize(1) == 2147483648
    ensures BlockSize(2) == 1073741824
    ensures BlockSize(3) == 536870912
    ensures BlockSize(4) == 268435456
    ensures BlockSize(5) == 134217728
    ensures BlockSize(6) == 67108864
    ensures BlockSize(7) == 33554432
    ensures BlockSize(8) == 16777216
    ensures BlockSize(9) == 8388608
    ensures BlockSize(10) == 4194304
    ensures BlockSize(11) == 2097152
    ensures BlockSize(12) == 1048576
    ensures BlockSize(13) == 524288
    ensures BlockSize(14) == 262144
    ensures BlockSize(15) == 131072
  {
    SmallBlockSizes();
    assert Pow2(17) == 131072;
    assert Pow2(18) == 262144;
    assert Pow2(19) == 524288;
    assert Pow2(20) == 1048576;
    assert Pow2(21) == 2097152;
    assert Pow2(22) == 4194304;
    assert Pow2(23) == 8388608;
    assert Pow2(24) == 16777216;
    assert Pow2(25) == 33554432;
    assert Pow2(26) == 67108864;
    assert Pow2(27) == 134217728;
    assert Pow2(28) == 268435456;
    assert Pow2(29) == 536870912;
    assert Pow2(30) == 1073741824;
    assert Pow2(31) == 2147483648;
    assert Pow2(32) == 4294967296;
  }

  /** A strictly shorter prefix gives a strictly larger block. */
  lemma BlockSizeStrict(m: PrefixLength, n: PrefixLength)
    requires m < n
    ensures BlockSize(n) < BlockSize(m)
  {
    SizeDivides(m, n - 1);
    BlockSizeStep(n - 1);
  }

  /** A larger block size is a multiple of every smaller one. */
  lemma SizeDivides(m: PrefixLength, n: PrefixLength)
    requires m <= n
    ensures BlockSize(m) % BlockSize(n) == 0
    ensures BlockSize(n) <= BlockSize(m)
  {
    Pow2Monotone(32 - n, 32 - m);
  }

  /**
   * The address `a` with its host bits cleared: the start of the block of
   * prefix length m that holds `a`.
   */
  function Align(a: int, m: PrefixLength): (r: int)
    ensures r % BlockSize(m) == 0
    ensures r <= a < r + BlockSize(m)
    ensures a >= 0 ==> r >= 0
  {
    var s := BlockSize(m);
    assert a - a % s == (a / s) * s;
    MulMod(a / s, s);
    ModAtMost(a, s);
    a - a % s
  }

  /** Aligning is the identity on an address that is already a block start. */
  lemma AlignAligned(a: int, m: PrefixLength)
    requires a % BlockSize(m) == 0
    ensures Align(a, m) == a
  {
  }

  /** Aligning is determined by the block: any aligned x with x <= a < x + size is Align(a). */
  lemma AlignIs(x: int, a: int, m: PrefixLength)
    requires x % BlockSize(m) == 0
    requires x <= a < x + BlockSize(m)
    ensures Align(a, m) == x
  {
    SameBlock(x, Align(a, m), a, BlockSize(m));
  }

  /**
   * Every address of a block with prefix n lies in the same block of any
   * shorter prefix m as the block's own start.
   */
  lemma AlignInside(b: int, n: PrefixLength, m: PrefixLength, a: int)
    requires m <= n
    requires b % BlockSize(n) == 0
    requires b <= a < b + BlockSize(n)
    ensures Align(a, m) == Align(b, m)
  {
    SizeDivides(m, n);
    var s := BlockSize(m);
    var lo := Align(b, m);
    AlignedAdd(lo, 1, s);
    ModTransitive(lo + s, s, BlockSize(n));
    MultiplesApart(b, lo + s, BlockSize(n));
    AlignIs(lo, a, m);
  }

  /** Adding a multiple of the block size keeps a block start aligned. */
  lemma AlignedAdd(x: int, k: int, s: int)
    requires s > 0 && x % s == 0
    ensures (x + k * s) % s == 0
  {
    var p := x / s;
    assert x == p * s;
    assert x + k * s == (p + k) * s;
    MulMod(p + k, s);
  }

  /** The difference of two multiples of s is a multiple of s. */
  lemma AlignedSub(x: int, y: int, s: int)
    requires s > 0 && x % s == 0 && y % s == 0
    ensures (x - y) % s == 0
  {
    var p, q := x / s, y / s;
    assert x == p * s && y == q * s;
    Distrib(p, q, s);
    MulMod(p - q, s);
  }

  /** Reducing a multiple of s modulo a multiple of s keeps it a multiple of s. */
  lemma ModOfMultiple(x: int, s: int, n: int)
    requires s > 0 && n > 0 && n % s == 0 && x % s == 0
    ensures (x % n) % s == 0
  {
    MulMod(x / n, n);
    ModTransitive((x / n) * n, n, s);
    assert x % n == x - (x / n) * n;
    AlignedSub(x, (x / n) * n, s);
  }

  /** The end of an aligned block that starts inside the address space is inside it too. */
  lemma AlignedBlockInSpace(x: int, m: PrefixLength)
    requires 0 <= x < AddressSpace && x % BlockSize(m) == 0
    ensures x + BlockSize(m) <= AddressSpace
  {
    assert AddressSpace % AddressSpace == 0;
    MulMod(1, AddressSpace);
    ModTransitive(AddressSpace, AddressSpace, BlockSize(m));
    MultiplesApart(x, AddressSpace, BlockSize(m));
  }

  /** A wider block holding an aligned narrower block's start holds all of it. */
  lemma BlockContains(b: int, n: PrefixLength, m: PrefixLength)
    requires m <= n
    requires b % BlockSize(n) == 0
    ensures Align(b, m) + BlockSize(m) >= b + BlockSize(n)
  {
    SizeDivides(m, n);
    var s := BlockSize(m);
    var lo := Align(b, m);
    AlignedAdd(lo, 1, s);
    ModTransitive(lo + s, s, BlockSize(n));
    MultiplesApart(b, lo + s, BlockSize(n));
  }
}
