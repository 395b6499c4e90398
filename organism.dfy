/**
 * The ETBD organism: a population of ten-bit phenotypes that emits a
 * response by picking one member, and renews itself one generation at a
 * time by selection (when reinforced) or drift (when not), recombination
 * and mutation.
 */
module Organisms {
  import opened Draws
  import opened Bits
  import opened Fitness
  import opened Selection
  import opened Recombination
  import opened Mutation

  /** The draws one child of a generation takes, in the order it takes them. */
  datatype ChildDraw = ChildDraw(parentA: real, parentB: real, point: real, flips: seq<real>)

  predicate ValidDraw(d: ChildDraw)
  {
    IsUnit(d.parentA) && IsUnit(d.parentB) && IsUnit(d.point)
    && |d.flips| == BITS && forall i :: 0 <= i < |d.flips| ==> IsUnit(d.flips[i])
  }

  predicate ValidDraws(ds: seq<ChildDraw>)
  {
    forall k :: 0 <= k < |ds| ==> ValidDraw(ds[k])
  }

  /** Every phenotype is one of the 1024 ten-bit values. */
  predicate OnRing(population: seq<int>)
  {
    forall i :: 0 <= i < |population| ==> 0 <= population[i] < MaxPhenotype
  }

  /** `mutate(recombine(parent_a, parent_b), rate)` with the child's draws. */
  function Offspring(a: int, b: int, rate: real, d: ChildDraw): int
    requires ValidDraw(d)
  {
    Mutated(RecombineDrawn(a, b, d.point), rate, d.flips)
  }

  /** One child of `reinforce`: both parents by fitness-proportionate selection. */
  function SelectedChild(population: seq<int>, target: int, maxVal: int, decay: real, rate: real, d: ChildDraw): int
    requires |population| > 0 && Selectable(population, target, maxVal, decay) && ValidDraw(d)
  {
    Offspring(SelectParent(population, target, maxVal, decay, d.parentA),
              SelectParent(population, target, maxVal, decay, d.parentB), rate, d)
  }

  /** One child of `drift`: both parents picked uniformly. */
  function DriftChild(population: seq<int>, rate: real, d: ChildDraw): int
    requires |population| > 0 && ValidDraw(d)
  {
    Offspring(population[UniformIndex(d.parentA, |population|)],
              population[UniformIndex(d.parentB, |population|)], rate, d)
  }

  /** The children bred from the draws, one per draw, appended in order. */
  function Brood(ds: seq<ChildDraw>, breed: ChildDraw --> int): (g: seq<int>)
    requires forall k :: 0 <= k < |ds| ==> breed.requires(ds[k])
    ensures |g| == |ds|
    ensures forall k :: 0 <= k < |ds| ==> g[k] == breed(ds[k])
    decreases |ds|
  {
    if ds == [] then []
    else Brood(ds[..|ds| - 1], breed) + [breed(ds[|ds| - 1])]
  }

  /** Breeding by selection for `target`, as a function of the child's draws. */
  function Selector(population: seq<int>, target: int, maxVal: int, decay: real, rate: real): (breed: ChildDraw --> int)
    requires |population| > 0 && Selectable(population, target, maxVal, decay)
    ensures forall d :: ValidDraw(d) ==> breed.requires(d) && breed(d) == SelectedChild(population, target, maxVal, decay, rate, d)
  {
    d requires ValidDraw(d) => SelectedChild(population, target, maxVal, decay, rate, d)
  }

  /** Breeding without selection, as a function of the child's draws. */
  function Drifter(population: seq<int>, rate: real): (breed: ChildDraw --> int)
    requires |population| > 0
    ensures forall d :: ValidDraw(d) ==> breed.requires(d) && breed(d) == DriftChild(population, rate, d)
  {
    d requires ValidDraw(d) => DriftChild(population, rate, d)
  }

  /** The population `reinforce` builds: one selected child per draw. */
  function Generation(population: seq<int>, target: int, maxVal: int, decay: real, rate: real, ds: seq<ChildDraw>): (g: seq<int>)
    requires |population| > 0 && Selectable(population, target, maxVal, decay) && ValidDraws(ds)
    ensures |g| == |ds|
    ensures forall k :: 0 <= k < |ds| ==> g[k] == SelectedChild(population, target, maxVal, decay, rate, ds[k])
  {
    Brood(ds, Selector(population, target, maxVal, decay, rate))
  }

  /** The population `drift` builds: one uniformly bred child per draw. */
  function Drifted(population: seq<int>, rate: real, ds: seq<ChildDraw>): (g: seq<int>)
    requires |population| > 0 && ValidDraws(ds)
    ensures |g| == |ds|
    ensures forall k :: 0 <= k < |ds| ==> g[k] == DriftChild(population, rate, ds[k])
  {
    Brood(ds, Drifter(population, rate))
  }

  /** One more draw breeds one more child at the end. */
  lemma BroodSnoc(ds: seq<ChildDraw>, breed: ChildDraw --> int, k: nat)
    requires forall j :: 0 <= j < |ds| ==> breed.requires(ds[j])
    requires k < |ds|
    ensures Brood(ds[..k + 1], breed) == Brood(ds[..k], breed) + [breed(ds[k])]
  {
    assert ds[..k + 1][..k] == ds[..k];
  }

  /** The population `reset` draws: one uniform phenotype in `[0, maxPhenotype)` per draw. */
  function InitialPopulation(draws: seq<real>, maxPhenotype: int): (p: seq<int>)
    requires maxPhenotype > 0 && forall i :: 0 <= i < |draws| ==> IsUnit(draws[i])
    ensures |p| == |draws|
    ensures forall i :: 0 <= i < |p| ==> 0 <= p[i] < maxPhenotype
  {
    seq(|draws|, i requires 0 <= i < |draws| && maxPhenotype > 0 && IsUnit(draws[i]) => UniformIndex(draws[i], maxPhenotype))
  }

  /** A child is a ten-bit value, whatever its parents. */
  lemma OffspringOnRing(a: int, b: int, rate: real, d: ChildDraw)
    requires ValidDraw(d)
    ensures 0 <= Offspring(a, b, rate, d) < MaxPhenotype
  {
    MutatedInRange(RecombineDrawn(a, b, d.point), rate, d.flips);
  }

  /** Reinforcement keeps the population on the ring, one child per draw. */
  lemma GenerationOnRing(population: seq<int>, target: int, maxVal: int, decay: real, rate: real, ds: seq<ChildDraw>)
    requires |population| > 0 && Selectable(population, target, maxVal, decay) && ValidDraws(ds)
    ensures OnRing(Generation(population, target, maxVal, decay, rate, ds))
  {
    var g := Generation(population, target, maxVal, decay, rate, ds);
    forall k | 0 <= k < |g| ensures 0 <= g[k] < MaxPhenotype {
      OffspringOnRing(SelectParent(population, target, maxVal, decay, ds[k].parentA),
                      SelectParent(population, target, maxVal, decay, ds[k].parentB), rate, ds[k]);
    }
  }

  /** Drift keeps the population on the ring, one child per draw. */
  lemma DriftedOnRing(population: seq<int>, rate: real, ds: seq<ChildDraw>)
    requires |population| > 0 && ValidDraws(ds)
    ensures OnRing(Drifted(population, rate, ds))
  {
    var g := Drifted(population, rate, ds);
    forall k | 0 <= k < |g| ensures 0 <= g[k] < MaxPhenotype {
      OffspringOnRing(population[UniformIndex(ds[k].parentA, |population|)],
                      population[UniformIndex(ds[k].parentB, |population|)], rate, ds[k]);
    }
  }

  /** Without mutation, two copies of the same parent breed that parent. */
  lemma OffspringOfEqualParents(a: int, rate: real, d: ChildDraw)
    requires ValidDraw(d) && 0 <= a < MaxPhenotype && rate <= 0.0
    ensures Offspring(a, a, rate, d) == a
  {
    RecombineSame(a, CrossoverPoint(d.point));
    MutatedRateZero(a, rate, d.flips);
  }

  /**
   * With a decay of 0 and no mutation, reinforcing a target that some
   * member already shows turns the whole population into that target.
   */
  lemma GenerationFixesTarget(population: seq<int>, target: int, rate: real, ds: seq<ChildDraw>)
    requires |population| > 0 && OnRing(population) && ValidDraws(ds)
    requires 0 <= target < MaxPhenotype && target in population && rate <= 0.0
    ensures Selectable(population, target, MaxPhenotype, 0.0)
    ensures forall k :: 0 <= k < |ds| ==> Generation(population, target, MaxPhenotype, 0.0, rate, ds)[k] == target
  {
    var u := 0.0;
    SelectParentZeroDecay(population, target, MaxPhenotype, u);
    var g := Generation(population, target, MaxPhenotype, 0.0, rate, ds);
    forall k | 0 <= k < |ds| ensures g[k] == target {
      SelectParentZeroDecay(population, target, MaxPhenotype, ds[k].parentA);
      SelectParentZeroDecay(population, target, MaxPhenotype, ds[k].parentB);
      OffspringOfEqualParents(target, rate, ds[k]);
    }
  }

  /** Without mutation, drift leaves a population of copies of one phenotype as it is. */
  lemma DriftKeepsUniform(population: seq<int>, p: int, rate: real, ds: seq<ChildDraw>)
    requires |population| > 0 && ValidDraws(ds) && 0 <= p < MaxPhenotype && rate <= 0.0
    requires forall i :: 0 <= i < |population| ==> population[i] == p
    ensures forall k :: 0 <= k < |ds| ==> Drifted(population, rate, ds)[k] == p
  {
    var g := Drifted(population, rate, ds);
    forall k | 0 <= k < |ds| ensures g[k] == p {
      OffspringOfEqualParents(p, rate, ds[k]);
    }
  }

  /** On the ring, with a target on the ring, any non-negative decay can select. */
  lemma RingSelectable(population: seq<int>, target: int, decay: real)
    requires OnRing(population) && 0 <= target < MaxPhenotype && 0.0 <= decay
    ensures Selectable(population, target, MaxPhenotype, decay)
  {
    forall i | 0 <= i < |population|
      ensures CircularDistance(population[i], target, MaxPhenotype) >= 0
    {
      DistanceAtMostHalf(population[i], target, MaxPhenotype);
    }
  }

  /** `child = recombine(parent_a, parent_b); child = mutate(child, rate)`. */
  method Breed(parentA: int, parentB: int, rate: real, d: ChildDraw) returns (child: int)
    requires ValidDraw(d)
    ensures child == Offspring(parentA, parentB, rate, d)
  {
    child := RecombineDrawn(parentA, parentB, d.point);
    child := Mutate(child, rate, d.flips);
  }

  /** One pass of the loop in `reinforce`: two selected parents, their child. */
  method SelectOne(population: seq<int>, target: int, maxVal: int, decay: real, rate: real, d: ChildDraw) returns (child: int)
    requires |population| > 0 && Selectable(population, target, maxVal, decay) && ValidDraw(d)
    ensures child == SelectedChild(population, target, maxVal, decay, rate, d)
  {
    var parentA := SelectParent(population, target, maxVal, decay, d.parentA);
    var parentB := SelectParent(population, target, maxVal, decay, d.parentB);
    child := Breed(parentA, parentB, rate, d);
  }

  /** One pass of the loop in `drift`: two uniformly picked parents, their child. */
  method DriftOne(population: seq<int>, rate: real, d: ChildDraw) returns (child: int)
    requires |population| > 0 && ValidDraw(d)
    ensures child == DriftChild(population, rate, d)
  {
    var parentA := population[UniformIndex(d.parentA, |population|)];
    var parentB := population[UniformIndex(d.parentB, |population|)];
    child := Breed(parentA, parentB, rate, d);
  }

  class Organism {
    const populationSize: int
    const mutationRate: real
    const fitnessDecay: real
    const maxPhenotype: int
    var population: seq<int>

    /** The population has its configured size and holds ten-bit values. */
    ghost predicate Valid()
      reads this
    {
      populationSize >= 1 && 0 < maxPhenotype <= MaxPhenotype
      && |population| == populationSize && OnRing(population)
    }

    /** `Organism(population_size, mutation_rate, fitness_decay, max_phenotype)`, which resets at once. */
    constructor (populationSize: int, mutationRate: real, fitnessDecay: real, maxPhenotype: int, draws: seq<real>)
      requires populationSize >= 1 && 0 < maxPhenotype <= MaxPhenotype
      requires |draws| == populationSize && forall i :: 0 <= i < |draws| ==> IsUnit(draws[i])
      ensures this.populationSize == populationSize && this.mutationRate == mutationRate
      ensures this.fitnessDecay == fitnessDecay && this.maxPhenotype == maxPhenotype
      ensures population == InitialPopulation(draws, maxPhenotype)
      ensures Valid()
    {
      this.populationSize := populationSize;
      this.mutationRate := mutationRate;
      this.fitnessDecay := fitnessDecay;
      this.maxPhenotype := maxPhenotype;
      population := InitialPopulation(draws, maxPhenotype);
    }

    /** `reset()`: a fresh population of uniform phenotypes. */
    method Reset(draws: seq<real>)
      requires Valid()
      requires |draws| == populationSize && forall i :: 0 <= i < |draws| ==> IsUnit(draws[i])
      modifies this
      ensures population == InitialPopulation(draws, maxPhenotype)
      ensures Valid()
    {
      population := InitialPopulation(draws, maxPhenotype);
    }

    /** `emit()`: a uniformly picked member of the population. */
    method Emit(u: real) returns (p: int)
      requires Valid() && IsUnit(u)
      ensures p == population[UniformIndex(u, |population|)]
      ensures p in population && 0 <= p < MaxPhenotype
    {
      p := population[UniformIndex(u, |population|)];
    }

    /** `reinforce(target)`: one generation bred from parents selected for closeness to the target. */
    method Reinforce(target: int, draws: seq<ChildDraw>)
      requires Valid() && |draws| == populationSize && ValidDraws(draws)
      requires Selectable(population, target, maxPhenotype, fitnessDecay)
      modifies this
      ensures population == Generation(old(population), target, maxPhenotype, fitnessDecay, mutationRate, draws)
      ensures Valid()
    {
      var current := population;
      var newPopulation: seq<int> := [];
      var k := 0;
      while k < populationSize
        invariant 0 <= k <= populationSize && |newPopulation| == k
        invariant newPopulation == Generation(current, target, maxPhenotype, fitnessDecay, mutationRate, draws[..k])
      {
        var child := SelectOne(current, target, maxPhenotype, fitnessDecay, mutationRate, draws[k]);
        BroodSnoc(draws, Selector(current, target, maxPhenotype, fitnessDecay, mutationRate), k);
        newPopulation := newPopulation + [child];
        k := k + 1;
      }
      assert draws[..k] == draws;
      GenerationOnRing(current, target, maxPhenotype, fitnessDecay, mutationRate, draws);
      population := newPopulation;
    }

    /** `drift()`: one generation bred from uniformly picked parents. */
    method Drift(draws: seq<ChildDraw>)
      requires Valid() && |draws| == populationSize && ValidDraws(draws)
      modifies this
      ensures population == Drifted(old(population), mutationRate, draws)
      ensures Valid()
    {
      var current := population;
      var newPopulation: seq<int> := [];
      var k := 0;
      while k < populationSize
        invariant 0 <= k <= populationSize && |newPopulation| == k
        invariant newPopulation == Drifted(current, mutationRate, draws[..k])
      {
        var child := DriftOne(current, mutationRate, draws[k]);
        BroodSnoc(draws, Drifter(current, mutationRate), k);
        newPopulation := newPopulation + [child];
        k := k + 1;
      }
      assert draws[..k] == draws;
      DriftedOnRing(current, mutationRate, draws);
      population := newPopulation;
    }
  }
}
