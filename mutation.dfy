/**
 * Bit-flip mutation: each of the ten phenotype bits is flipped when its
 * own unit draw falls below the mutation rate.
 */
module Mutation {
  import opened Support
  import opened Draws
  import opened Bits

  /**
   * `p` with its low ten bits replaced by `low` and every higher bit kept.
   * For a Python integer and a mask below 1024, `p ^ mask` is
   * `WithLow(p, Low(p) ^ mask)`, negative `p` included.
   */
  function WithLow(p: int, low: bv10): int
  {
    p - p % 1024 + low as int
  }

  /** Replacing the low bits keeps the high part and shows the new low bits. */
  lemma WithLowParts(p: int, low: bv10)
    ensures WithLow(p, low) / 1024 == p / 1024
    ensures Low(WithLow(p, low)) == low
  {
    var n := WithLow(p, low);
    ModUnique(n, 1024, p / 1024, low as int);
    assert n % 1024 == low as int;
  }

  /** Putting back a number's own low bits gives the number. */
  lemma WithOwnLow(p: int)
    ensures WithLow(p, Low(p)) == p
  {
  }

  /** The flip of bit `j`: `1 << j` when its draw is below the rate, else nothing. */
  function FlipOne(rate: real, draws: seq<real>, j: nat): bv10
    requires j < BITS <= |draws|
  {
    if draws[j] < rate then (1 as bv10) << j else 0
  }

  /** The flips of the first `k` bits together. */
  function FlipMask(rate: real, draws: seq<real>, k: nat): bv10
    requires k <= BITS <= |draws|
  {
    if k == 0 then 0 else FlipMask(rate, draws, k - 1) ^ FlipOne(rate, draws, k - 1)
  }

  /**
   * The phenotype after mutation with one draw per bit: its low ten bits
   * exclusive-or the flip mask, every higher bit as it was.
   */
  function Mutated(phenotype: int, rate: real, draws: seq<real>): int
    requires |draws| == BITS
  {
    WithLow(phenotype, Low(phenotype) ^ FlipMask(rate, draws, |draws|))
  }

  /** One more bit of the loop: exclusive-or with the flip of bit `bit` extends the mask by that bit. */
  lemma FlipStep(l0: bv10, rate: real, draws: seq<real>, bit: nat, low: bv10)
    requires bit < BITS <= |draws|
    requires low == l0 ^ FlipMask(rate, draws, bit)
    ensures low ^ FlipOne(rate, draws, bit) == l0 ^ FlipMask(rate, draws, bit + 1)
  {
  }

  /** One pass of the loop: flip bit `bit` when its draw is below the rate. */
  method FlipIfDrawn(low: bv10, rate: real, draws: seq<real>, bit: nat) returns (r: bv10)
    requires bit < BITS <= |draws|
    ensures r == low ^ FlipOne(rate, draws, bit)
  {
    r := low;
    if draws[bit] < rate {
      r := r ^ ((1 as bv10) << bit);
    }
  }

  /**
   * The loop of `mutate` on the low ten bits: `bit` by `bit`, flip it when
   * its draw is below the rate. (`p ^= 1 << bit` for `bit < 10` touches
   * no higher bit, so `Mutate` can put those back afterwards.)
   */
  method FlipLow(l0: bv10, rate: real, draws: seq<real>) returns (low: bv10)
    requires |draws| == BITS
    ensures low == l0 ^ FlipMask(rate, draws, |draws|)
  {
    low := l0;
    for bit := 0 to |draws|
      invariant low == l0 ^ FlipMask(rate, draws, bit)
    {
      FlipStep(l0, rate, draws, bit, low);
      low := FlipIfDrawn(low, rate, draws, bit);
    }
  }

  /** `mutate(phenotype, mutation_rate)` with its ten draws, one per bit in order. */
  method Mutate(phenotype: int, rate: real, draws: seq<real>) returns (r: int)
    requires |draws| == BITS
    ensures r == Mutated(phenotype, rate, draws)
  {
    var low := FlipLow(Low(phenotype), rate, draws);
    r := WithLow(phenotype, low);
  }

  /** Bit `i` of a single flip is set exactly when `i` is that bit and its draw is below the rate. */
  lemma FlipOneBit(rate: real, draws: seq<real>, j: nat, i: nat)
    requires j < BITS <= |draws| && i < BITS
    ensures Bit(FlipOne(rate, draws, j), i) <==> i == j && draws[j] < rate
  {
    if draws[j] < rate {
      OneBit(i, j);
    } else {
      assert FlipOne(rate, draws, j) == 0;
    }
  }

  /** Bit `i` of the flip mask is set exactly when `i` is among the first `k` and its draw is below the rate. */
  lemma {:induction false} FlipMaskBit(rate: real, draws: seq<real>, k: nat, i: nat)
    requires k <= BITS <= |draws| && i < BITS
    ensures Bit(FlipMask(rate, draws, k), i) <==> i < k && draws[i] < rate
  {
    if k == 0 {
      assert FlipMask(rate, draws, 0) == 0;
    } else {
      var m, one := FlipMask(rate, draws, k - 1), FlipOne(rate, draws, k - 1);
      assert FlipMask(rate, draws, k) == m ^ one;
      FlipMaskBit(rate, draws, k - 1, i);
      XorBit(m, one, i);
      FlipOneBit(rate, draws, k - 1, i);
    }
  }

  /** Mutation keeps every bit from position ten up and exclusive-ors the low ten bits with the flip mask. */
  lemma MutatedParts(p: int, rate: real, draws: seq<real>)
    requires |draws| == BITS
    ensures Mutated(p, rate, draws) / 1024 == p / 1024
    ensures Low(Mutated(p, rate, draws)) == Low(p) ^ FlipMask(rate, draws, |draws|)
  {
    var x := Low(p) ^ FlipMask(rate, draws, |draws|);
    assert Mutated(p, rate, draws) == WithLow(p, x);
    WithLowParts(p, x);
  }

  /** Exactly the bits whose draw is below the rate are flipped; the others keep their value. */
  lemma MutatedBits(p: int, rate: real, draws: seq<real>, i: nat)
    requires |draws| == BITS && i < BITS
    ensures Bit(Low(Mutated(p, rate, draws)), i) <==> (Bit(Low(p), i) != (draws[i] < rate))
  {
    MutatedParts(p, rate, draws);
    var a, m := Low(p), FlipMask(rate, draws, |draws|);
    assert Low(Mutated(p, rate, draws)) == a ^ m;
    XorBit(a, m, i);
    FlipMaskBit(rate, draws, |draws|, i);
  }

  /** A phenotype on the ring stays on the ring. */
  lemma MutatedInRange(p: int, rate: real, draws: seq<real>)
    requires |draws| == BITS && 0 <= p < 1024
    ensures 0 <= Mutated(p, rate, draws) < 1024
  {
    assert p / 1024 == 0;
  }

  /** No draw of the first `k` below the rate: nothing is flipped. */
  lemma {:induction false} FlipMaskNone(rate: real, draws: seq<real>, k: nat)
    requires k <= BITS <= |draws|
    requires forall i :: 0 <= i < k ==> !(draws[i] < rate)
    ensures FlipMask(rate, draws, k) == 0
  {
    if k > 0 {
      FlipMaskNone(rate, draws, k - 1);
      assert FlipOne(rate, draws, k - 1) == 0;
    }
  }

  /** Every draw of the first `k` below the rate: all of the first `k` bits are flipped. */
  lemma {:induction false} FlipMaskAll(rate: real, draws: seq<real>, k: nat)
    requires k <= BITS <= |draws|
    requires forall i :: 0 <= i < k ==> draws[i] < rate
    ensures FlipMask(rate, draws, k) == Mask(k)
  {
    if k > 0 {
      FlipMaskAll(rate, draws, k - 1);
      MaskGrow(k - 1);
    }
  }

  /** With a rate of 0 no unit draw is below it, so mutation changes nothing. */
  lemma MutatedRateZero(p: int, rate: real, draws: seq<real>)
    requires |draws| == BITS && forall i :: 0 <= i < |draws| ==> IsUnit(draws[i])
    requires rate <= 0.0
    ensures Mutated(p, rate, draws) == p
  {
    FlipMaskNone(rate, draws, |draws|);
    var a := Low(p);
    assert a ^ 0 == a;
    WithOwnLow(p);
  }

  lemma ComplementValue(x: bv10)
    ensures (x ^ 0x3FF) as int == 1023 - x as int
  {
  }

  /** Flipping all ten bits of a phenotype on the ring gives `1023` minus it. */
  lemma ComplementOnRing(p: int)
    requires 0 <= p < 1024
    ensures WithLow(p, Low(p) ^ 0x3FF) == 1023 - p
  {
    var a := Low(p);
    ComplementValue(a);
    assert p / 1024 == 0;
  }

  /** `Mutated` spelled out: the low bits exclusive-or the whole flip mask. */
  lemma MutatedUnfold(p: int, rate: real, draws: seq<real>)
    requires |draws| == BITS
    ensures Mutated(p, rate, draws) == WithLow(p, Low(p) ^ FlipMask(rate, draws, |draws|))
  {
  }

  /** With a rate of 1 every unit draw is below it: all ten low bits are flipped, so a phenotype `p` on the ring becomes `1023 - p`. */
  lemma MutatedRateOne(p: int, rate: real, draws: seq<real>)
    requires |draws| == BITS && forall i :: 0 <= i < |draws| ==> IsUnit(draws[i])
    requires rate >= 1.0
    ensures Low(Mutated(p, rate, draws)) == Low(p) ^ 0x3FF
    ensures Mutated(p, rate, draws) / 1024 == p / 1024
    ensures 0 <= p < 1024 ==> Mutated(p, rate, draws) == 1023 - p
  {
    MutatedUnfold(p, rate, draws);
    MutatedParts(p, rate, draws);
    FlipMaskAll(rate, draws, |draws|);
    assert FlipMask(rate, draws, |draws|) == Mask(10) == 0x3FF;
    if 0 <= p < 1024 {
      ComplementOnRing(p);
    }
  }
}
