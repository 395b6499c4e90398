/**
 * ETBD phenotypes are Python integers read as ten-bit strings. `Low(x)` is
 * the low ten bits of `x` in two's complement (Python's `x & 1023`), as a
 * `bv10`; the bit facts below are stated on `bv10` values.
 */
module Bits {

  const BITS: nat := 10

  lemma SmallRoundTrip(r: int)
    requires 0 <= r < 32
    ensures (r as bv10) as int == r
  {
  }

  /** Every value of the ring is the integer of exactly one ten-bit string. */
  lemma RoundTrip(r: int)
    requires 0 <= r < 1024
    ensures (r as bv10) as int == r
  {
    var h, l := r / 32, r % 32;
    SmallRoundTrip(h);
    SmallRoundTrip(l);
    var x := (h as bv10) * 32 + (l as bv10);
    assert x as int == h * 32 + l;
    assert x == r as bv10;
  }

  /** `x & 1023`: the low ten bits, whatever the sign of `x`. */
  function Low(x: int): (b: bv10)
    ensures b as int == x % 1024
  {
    RoundTrip(x % 1024);
    (x % 1024) as bv10
  }

  /** Reading a ten-bit string back as an integer and taking its low bits gives the string. */
  lemma LowOfBits(b: bv10)
    ensures Low(b as int) == b
  {
    assert (b as int) % 1024 == b as int;
  }

  /** Bit `i` of a ten-bit string. */
  predicate Bit(x: bv10, i: nat)
    requires i < 10
  {
    (x >> i) & 1 == 1
  }

  /** `(1 << p) - 1`: the bits below position `p`. */
  function Mask(p: nat): (m: bv10)
    requires p <= 10
  {
    if p == 10 then 0x3FF else ((1 as bv10) << p) - 1
  }

  lemma MaskBit(p: nat, i: nat)
    requires p <= 10 && i < 10
    ensures Bit(Mask(p), i) <==> i < p
  {
  }

  /** Bit `i` of an exclusive or is the exclusive or of the two bits. */
  lemma XorBit(x: bv10, y: bv10, i: nat)
    requires i < 10
    ensures Bit(x ^ y, i) == (Bit(x, i) != Bit(y, i))
  {
    ShiftXor(x, y, i);
    LowXor(x >> i, y >> i);
  }

  lemma ShiftXor(x: bv10, y: bv10, i: nat)
    requires i < 10
    ensures (x ^ y) >> i == (x >> i) ^ (y >> i)
  {
  }

  lemma LowXor(a: bv10, b: bv10)
    ensures ((a ^ b) & 1 == 1) == ((a & 1 == 1) != (b & 1 == 1))
  {
  }

  /** `1 << j` has exactly bit `j` set. */
  lemma OneBit(i: nat, j: nat)
    requires i < 10 && j < 10
    ensures Bit((1 as bv10) << j, i) <==> i == j
  {
  }

  /** Adding bit `k` to the mask below `k` gives the mask below `k + 1`. */
  lemma MaskGrow(k: nat)
    requires k < 10
    ensures Mask(k) ^ ((1 as bv10) << k) == Mask(k + 1)
  {
  }

  /** Under a mask, a selection `(x & m) | (y & ~m)` shows `x`; outside it, `y`. */
  lemma SelectBlocks(x: bv10, y: bv10, m: bv10)
    ensures ((x & m) | (y & !m)) & m == x & m
    ensures ((x & m) | (y & !m)) & !m == y & !m
  {
  }
}
