/**
 * Single-point crossover of two ten-bit phenotypes: the bits below the
 * crossover point come from the first parent, the rest from the second.
 */
module Recombination {
  import opened Draws
  import opened Bits

  /** `np.random.randint(1, BITS)`: a crossover point in [1, 9]. */
  function CrossoverPoint(u: real): (p: nat)
    requires IsUnit(u)
    ensures 1 <= p <= BITS - 1
  {
    1 + UniformIndex(u, BITS - 1)
  }

  /** `(a & mask) | (b & ~mask)` on ten-bit strings. */
  function Cross(x: bv10, y: bv10, m: bv10): bv10
  {
    (x & m) | (y & !m)
  }

  /** `recombine(parent_a, parent_b)` with the crossover point already drawn. */
  function Recombine(parentA: int, parentB: int, point: nat): (child: int)
    requires 1 <= point <= BITS - 1
    ensures 0 <= child < 1024
  {
    Cross(Low(parentA), Low(parentB), Mask(point)) as int
  }

  /** `recombine` with its draw: the crossover point comes from the unit variate `u`. */
  function RecombineDrawn(parentA: int, parentB: int, u: real): (child: int)
    requires IsUnit(u)
    ensures 0 <= child < 1024
    ensures child == Recombine(parentA, parentB, CrossoverPoint(u))
  {
    Recombine(parentA, parentB, CrossoverPoint(u))
  }

  /** The child is the crossed ten-bit string, and below the crossover point it shows `parentA`'s bits. */
  lemma RecombineBelowPoint(parentA: int, parentB: int, point: nat)
    requires 1 <= point <= BITS - 1
    ensures Recombine(parentA, parentB, point) == Cross(Low(parentA), Low(parentB), Mask(point)) as int
    ensures Cross(Low(parentA), Low(parentB), Mask(point)) & Mask(point) == Low(parentA) & Mask(point)
  {
    CrossBlocks(Low(parentA), Low(parentB), Mask(point));
  }

  /** The child is the crossed ten-bit string, and from the crossover point up it shows `parentB`'s bits. */
  lemma RecombineFromPoint(parentA: int, parentB: int, point: nat)
    requires 1 <= point <= BITS - 1
    ensures Recombine(parentA, parentB, point) == Cross(Low(parentA), Low(parentB), Mask(point)) as int
    ensures Cross(Low(parentA), Low(parentB), Mask(point)) & !Mask(point) == Low(parentB) & !Mask(point)
  {
    CrossBlocks(Low(parentA), Low(parentB), Mask(point));
  }

  /** The crossed string shows `x` under the mask and `y` outside it. */
  lemma CrossBlocks(x: bv10, y: bv10, m: bv10)
    ensures Cross(x, y, m) & m == x & m
    ensures Cross(x, y, m) & !m == y & !m
  {
    SelectBlocks(x, y, m);
  }

  /** The same parent twice, on the ring, is reproduced at every crossover point. */
  lemma RecombineSame(a: int, point: nat)
    requires 0 <= a < 1024 && 1 <= point <= BITS - 1
    ensures Recombine(a, a, point) == a
  {
    CrossSame(Low(a), Mask(point));
    assert Low(a) as int == a % 1024 == a;
  }

  /** Crossing a string with itself gives the string. */
  lemma CrossSame(x: bv10, m: bv10)
    ensures Cross(x, x, m) == x
  {
    SelectSame(x, m);
  }

  lemma SelectSame(x: bv10, m: bv10)
    ensures (x & m) | (x & !m) == x
  {
  }
}
