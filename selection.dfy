/**
 * Fitness-proportionate parent selection: each member of the population
 * is weighted by its fitness for the target; with no fitness anywhere the
 * choice is uniform.
 */
module Selection {
  import opened Draws
  import opened Fitness

  /**
   * What selection needs of its inputs: a non-negative decay (numpy
   * refuses negative probabilities) and, when the decay is 0, no negative
   * distance (`0.0 ** -k` divides by zero).
   */
  predicate Selectable(population: seq<int>, target: int, maxVal: int, decay: real)
  {
    0.0 <= decay
    && forall i :: 0 <= i < |population| ==> CircularDistance(population[i], target, maxVal) >= 0 || decay != 0.0
  }

  /** A non-negative decay gives non-negative fitness. */
  lemma FitnessNonNegative(p: int, target: int, maxVal: int, decay: real)
    requires 0.0 <= decay
    requires CircularDistance(p, target, maxVal) >= 0 || decay != 0.0
    ensures FitnessValue(p, target, maxVal, decay) >= 0.0
  {
    var d := CircularDistance(p, target, maxVal);
    if d < 0 {
      var q := Pow(decay, -d);
      assert Power(decay, d) * q == 1.0;
      assert q >= 0.0;
    }
  }

  /** `[fitness_value(p, target, max_val, decay) for p in population]`. */
  function Fitnesses(population: seq<int>, target: int, maxVal: int, decay: real): (f: seq<real>)
    requires Selectable(population, target, maxVal, decay)
    ensures |f| == |population|
    ensures forall i :: 0 <= i < |f| ==> f[i] == FitnessValue(population[i], target, maxVal, decay) && f[i] >= 0.0
  {
    seq(|population|, i requires 0 <= i < |population| && Selectable(population, target, maxVal, decay) =>
      FitnessNonNegative(population[i], target, maxVal, decay);
      FitnessValue(population[i], target, maxVal, decay))
  }

  /** A sum of non-negative terms is non-negative. */
  lemma {:induction false} SumNonNegative(xs: seq<real>)
    requires forall i :: 0 <= i < |xs| ==> xs[i] >= 0.0
    ensures Sum(xs) >= 0.0
  {
    if xs != [] {
      SumNonNegative(xs[1..]);
    }
  }

  /**
   * The index `select_parent` picks with the unit variate `u`: uniform when
   * the total fitness is 0, by `fitness / total` otherwise.
   */
  function SelectIndex(population: seq<int>, target: int, maxVal: int, decay: real, u: real): (i: nat)
    requires |population| > 0 && IsUnit(u)
    requires Selectable(population, target, maxVal, decay)
    ensures i < |population|
  {
    var f := Fitnesses(population, target, maxVal, decay);
    var total := Sum(f);
    if total == 0.0 then UniformIndex(u, |population|)
    else WeightedIndex(Normalize(f, total), u)
  }

  /** `select_parent(population, target, max_val, decay)` with its draw `u`. */
  function SelectParent(population: seq<int>, target: int, maxVal: int, decay: real, u: real): (p: int)
    requires |population| > 0 && IsUnit(u)
    requires Selectable(population, target, maxVal, decay)
    ensures p in population
  {
    population[SelectIndex(population, target, maxVal, decay, u)]
  }

  /**
   * With some fitness in the population, the picked index is the one whose
   * cumulative probability interval holds `u`, and its fitness is positive.
   */
  lemma SelectIndexProportional(population: seq<int>, target: int, maxVal: int, decay: real, u: real)
    requires |population| > 0 && IsUnit(u)
    requires Selectable(population, target, maxVal, decay)
    requires Sum(Fitnesses(population, target, maxVal, decay)) != 0.0
    ensures var f := Fitnesses(population, target, maxVal, decay);
            var p := Normalize(f, Sum(f));
            var i := SelectIndex(population, target, maxVal, decay, u);
            Sum(p[..i]) <= u < Sum(p[..i + 1]) && f[i] > 0.0
  {
    var f := Fitnesses(population, target, maxVal, decay);
    var total := Sum(f);
    SumNonNegative(f);
    NormalizeIsDistribution(f);
    var p := Normalize(f, total);
    WeightedIndexInterval(p, u);
    WeightedIndexPositive(p, u);
    var i := WeightedIndex(p, u);
    PositiveQuotient(f[i], total);
  }

  lemma PositiveQuotient(a: real, t: real)
    requires t > 0.0 && a / t > 0.0
    ensures a > 0.0
  {
  }

  /** With no fitness anywhere the picked index is the uniform one. */
  lemma SelectIndexUniform(population: seq<int>, target: int, maxVal: int, decay: real, u: real)
    requires |population| > 0 && IsUnit(u)
    requires Selectable(population, target, maxVal, decay)
    requires Sum(Fitnesses(population, target, maxVal, decay)) == 0.0
    ensures SelectIndex(population, target, maxVal, decay, u) == UniformIndex(u, |population|)
  {
  }

  /** A population of one always yields that one. */
  lemma SelectParentSingle(p: int, target: int, maxVal: int, decay: real, u: real)
    requires IsUnit(u) && Selectable([p], target, maxVal, decay)
    ensures SelectParent([p], target, maxVal, decay, u) == p
  {
  }

  /** A decay in (0, 1] raised to any natural power is positive. */
  lemma {:induction false} PowPositive(b: real, n: nat)
    requires b > 0.0
    ensures Pow(b, n) > 0.0
  {
    if n > 0 {
      PowPositive(b, n - 1);
      MulPositive(b, Pow(b, n - 1));
    }
  }

  lemma MulPositive(x: real, y: real)
    requires x > 0.0 && y > 0.0
    ensures x * y > 0.0
  {
  }

  /** A positive decay gives every phenotype positive fitness, so the uniform fallback never happens. */
  lemma PositiveDecayWeighted(population: seq<int>, target: int, maxVal: int, decay: real)
    requires |population| > 0 && decay > 0.0
    ensures Selectable(population, target, maxVal, decay)
    ensures Sum(Fitnesses(population, target, maxVal, decay)) > 0.0
  {
    var f := Fitnesses(population, target, maxVal, decay);
    var d := CircularDistance(population[0], target, maxVal);
    if d >= 0 {
      PowPositive(decay, d);
    } else {
      PowPositive(decay, -d);
      assert Power(decay, d) * Pow(decay, -d) == 1.0;
    }
    assert f[0] > 0.0;
    NotAllZero(f, 0);
  }

  /**
   * With a decay of 0 only a phenotype on the target has fitness, so when
   * the target is in the population (of the ring) it is always the parent.
   */
  lemma SelectParentZeroDecay(population: seq<int>, target: int, maxVal: int, u: real)
    requires |population| > 0 && IsUnit(u)
    requires forall i :: 0 <= i < |population| ==> 0 <= population[i] < maxVal
    requires 0 <= target < maxVal && target in population
    ensures Selectable(population, target, maxVal, 0.0)
    ensures SelectParent(population, target, maxVal, 0.0, u) == target
  {
    forall i | 0 <= i < |population|
      ensures CircularDistance(population[i], target, maxVal) >= 0
    {
      DistanceAtMostHalf(population[i], target, maxVal);
    }
    var f := Fitnesses(population, target, maxVal, 0.0);
    var k :| 0 <= k < |population| && population[k] == target;
    FitnessAtTarget(target, maxVal, 0.0);
    assert f[k] == 1.0;
    NotAllZero(f, k);
    SelectIndexProportional(population, target, maxVal, 0.0, u);
    var i := SelectIndex(population, target, maxVal, 0.0, u);
    DistanceZeroIffEqual(population[i], target, maxVal);
  }

  /** Non-negative terms with a positive one sum to something positive. */
  lemma {:induction false} NotAllZero(xs: seq<real>, k: nat)
    requires forall i :: 0 <= i < |xs| ==> xs[i] >= 0.0
    requires k < |xs| && xs[k] > 0.0
    ensures Sum(xs) > 0.0
  {
    if k == 0 {
      SumNonNegative(xs[1..]);
    } else {
      NotAllZero(xs[1..], k - 1);
    }
  }
}
