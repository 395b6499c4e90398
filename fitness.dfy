/**
 * The circular fitness landscape of ETBD: phenotypes sit on a ring of
 * `maxVal` values and fitness decays geometrically with the distance
 * around the ring from the reinforced target.
 */
module Fitness {
  import opened Support

  const MaxPhenotype: int := 1024

  /** `circular_distance(a, b, max_val)`: the shorter way around the ring. */
  function CircularDistance(a: int, b: int, maxVal: int): (d: int)
    ensures d <= Abs(a - b) && d <= maxVal - Abs(a - b)
    ensures d == Abs(a - b) || d == maxVal - Abs(a - b)
  {
    var diff := Abs(a - b);
    Min(diff, maxVal - diff)
  }

  /** The distance does not depend on the order of the two phenotypes. */
  lemma DistanceSymmetric(a: int, b: int, maxVal: int)
    ensures CircularDistance(a, b, maxVal) == CircularDistance(b, a, maxVal)
  {
  }

  /** On the ring, two phenotypes are at distance 0 exactly when they are equal. */
  lemma DistanceZeroIffEqual(a: int, b: int, maxVal: int)
    requires 0 <= a < maxVal && 0 <= b < maxVal
    ensures CircularDistance(a, b, maxVal) == 0 <==> a == b
  {
  }

  /** On the ring, the distance is never more than half the ring. */
  lemma DistanceAtMostHalf(a: int, b: int, maxVal: int)
    requires 0 <= a < maxVal && 0 <= b < maxVal
    ensures 0 <= CircularDistance(a, b, maxVal) <= maxVal / 2
  {
  }

  /** The documented distances: opposite points, one past opposite, and the wrap-around. */
  lemma DistanceExamples()
    ensures CircularDistance(0, 512, 1024) == 512
    ensures CircularDistance(0, 513, 1024) == 511
    ensures CircularDistance(0, 1020, 1024) == 4
    ensures CircularDistance(1020, 0, 1024) == 4
  {
  }

  /** `b ** n` for a natural exponent. */
  function Pow(b: real, n: nat): (r: real)
    ensures n == 0 ==> r == 1.0
    ensures b != 0.0 ==> r != 0.0
    ensures b >= 0.0 ==> r >= 0.0
    decreases n
  {
    if n == 0 then 1.0 else b * Pow(b, n - 1)
  }

  /** Python's `b ** e` for a float base and an integer exponent; `0.0 ** -k` is an error there. */
  function Power(b: real, e: int): (r: real)
    requires e >= 0 || b != 0.0
    ensures e >= 0 ==> r == Pow(b, e)
    ensures e < 0 ==> r * Pow(b, -e) == 1.0
  {
    if e >= 0 then Pow(b, e) else 1.0 / Pow(b, -e)
  }

  /** `fitness_value(phenotype, target, max_val, decay)`. */
  function FitnessValue(phenotype: int, target: int, maxVal: int, decay: real): (f: real)
    requires CircularDistance(phenotype, target, maxVal) >= 0 || decay != 0.0
  {
    Power(decay, CircularDistance(phenotype, target, maxVal))
  }

  /** A phenotype on the target has fitness 1, whatever the decay. */
  lemma FitnessAtTarget(p: int, maxVal: int, decay: real)
    requires maxVal >= 0
    ensures FitnessValue(p, p, maxVal, decay) == 1.0
  {
  }

  /** A decay in [0, 1] raised to a natural power stays in [0, 1]. */
  lemma {:induction false} PowInUnit(b: real, n: nat)
    requires 0.0 <= b <= 1.0
    ensures 0.0 <= Pow(b, n) <= 1.0
  {
    if n > 0 {
      PowInUnit(b, n - 1);
      MulAtMostOne(b, Pow(b, n - 1));
    }
  }

  lemma MulAtMostOne(x: real, y: real)
    requires 0.0 <= x <= 1.0 && 0.0 <= y <= 1.0
    ensures x * y <= 1.0 && x * y <= y
  {
    var d := 1.0 - x;
    assert d * y >= 0.0;
    assert x * y == y - d * y;
  }

  /** One more factor of a decay in [0, 1] makes a power no larger. */
  lemma PowStep(b: real, k: nat)
    requires 0.0 <= b <= 1.0
    ensures Pow(b, k + 1) <= Pow(b, k)
  {
    PowInUnit(b, k);
    ScaleDown(b, Pow(b, k), Pow(b, k + 1));
  }

  /** A product `p == b * x` with a factor `b` in [0, 1] and `x >= 0` is at most `x`. */
  lemma ScaleDown(b: real, x: real, p: real)
    requires 0.0 <= b <= 1.0 && 0.0 <= x && p == b * x
    ensures p <= x
  {
    var d := 1.0 - b;
    assert d * x >= 0.0;
    assert p == x - d * x;
  }

  /** A decay in [0, 1] makes a higher power no larger. */
  lemma {:induction false} PowAntitone(b: real, m: nat, n: nat)
    requires 0.0 <= b <= 1.0 && m <= n
    ensures Pow(b, n) <= Pow(b, m)
    decreases n - m
  {
    if m < n {
      PowAntitone(b, m, n - 1);
      PowStep(b, n - 1);
    }
  }

  /** On the ring and for a decay in [0, 1], fitness lies in [0, 1] and never grows with distance. */
  lemma FitnessBoundedAndDecreasing(p: int, q: int, target: int, maxVal: int, decay: real)
    requires 0 <= p < maxVal && 0 <= q < maxVal && 0 <= target < maxVal
    requires 0.0 <= decay <= 1.0
    ensures 0.0 <= FitnessValue(p, target, maxVal, decay) <= 1.0
    ensures CircularDistance(p, target, maxVal) <= CircularDistance(q, target, maxVal) ==>
      FitnessValue(q, target, maxVal, decay) <= FitnessValue(p, target, maxVal, decay)
  {
    var dp := CircularDistance(p, target, maxVal);
    var dq := CircularDistance(q, target, maxVal);
    DistanceAtMostHalf(p, target, maxVal);
    DistanceAtMostHalf(q, target, maxVal);
    PowInUnit(decay, dp);
    if dp <= dq {
      PowAntitone(decay, dp, dq);
    }
  }
}
