/**
 * The ETBD agent: an organism whose emitted phenotype is read as an action
 * through a fixed map from action names to half-open phenotype ranges, and
 * whose reinforcement aims at the middle of the reinforced action's range.
 */
module ETBD {
  import opened Draws
  import opened Fitness
  import opened Selection
  import opened Organisms
  import TwoChoice
  import GridChamber

  /** One entry `action: (low, high)` of a response class map. */
  datatype ActionRange = ActionRange(name: string, low: int, high: int)

  /** A response class map, in the dictionary's insertion order. */
  type ActionMap = seq<ActionRange>

  const TwoChoiceMap: ActionMap := [
    ActionRange("choice_a", 0, 512),
    ActionRange("choice_b", 512, 1024)
  ]

  const GridMap: ActionMap := [
    ActionRange("up", 0, 171),
    ActionRange("down", 171, 342),
    ActionRange("left", 342, 513),
    ActionRange("right", 513, 684),
    ActionRange("stay", 684, 855),
    ActionRange("press_lever", 855, 1024)
  ]

  /** The keys of a map, in order. */
  function Names(m: ActionMap): (names: seq<string>)
    ensures |names| == |m|
    ensures forall i :: 0 <= i < |m| ==> names[i] == m[i].name
  {
    seq(|m|, i requires 0 <= i < |m| => m[i].name)
  }

  predicate Contains(r: ActionRange, p: int)
  {
    r.low <= p < r.high
  }

  /**
   * The ranges are non-empty, start at 0, end at `n`, each one starts where
   * the one before it ends, and no key occurs twice, as in a dictionary.
   */
  predicate Partitions(m: ActionMap, n: int)
  {
    |m| > 0 && m[0].low == 0 && m[|m| - 1].high == n
    && (forall i :: 0 <= i < |m| ==> m[i].low < m[i].high)
    && (forall i :: 0 < i < |m| ==> m[i - 1].high == m[i].low)
    && (forall i, j :: 0 <= i < j < |m| ==> m[i].name != m[j].name)
  }

  /** The index of the first range holding `p`, or `|m|` when none does. */
  function FirstMatch(m: ActionMap, p: int): (i: nat)
    ensures i <= |m|
    ensures forall j :: 0 <= j < i ==> !Contains(m[j], p)
    ensures i < |m| ==> Contains(m[i], p)
  {
    if m == [] then 0
    else if Contains(m[0], p) then 0
    else 1 + FirstMatch(m[1..], p)
  }

  /** What `phenotype_to_action` returns: the first range holding the phenotype, else the first key. */
  function ActionFor(m: ActionMap, p: int): (action: string)
    requires |m| > 0
    ensures action in Names(m)
  {
    var i := FirstMatch(m, p);
    if i < |m| then m[i].name else m[0].name
  }

  /** `phenotype_to_action(phenotype, action_map)`: scan the entries in order and return at the first range holding it. */
  method PhenotypeToAction(phenotype: int, m: ActionMap) returns (action: string)
    requires |m| > 0
    ensures action == ActionFor(m, phenotype)
  {
    var i := 0;
    while i < |m|
      invariant 0 <= i <= |m|
      invariant forall j :: 0 <= j < i ==> !Contains(m[j], phenotype)
    {
      if m[i].low <= phenotype < m[i].high {
        return m[i].name;
      }
      i := i + 1;
    }
    return m[0].name;
  }

  /** The index of the entry named `action`, or `|m|` when there is none. */
  function IndexOf(m: ActionMap, action: string): (i: nat)
    ensures i <= |m|
    ensures forall j :: 0 <= j < i ==> m[j].name != action
    ensures i < |m| ==> m[i].name == action
    ensures i < |m| <==> action in Names(m)
  {
    if m == [] then 0
    else if m[0].name == action then 0
    else
      assert Names(m)[1..] == Names(m[1..]);
      1 + IndexOf(m[1..], action)
  }

  /** `action_to_target(action, action_map)`: the integer midpoint `(low + high) // 2` of the action's range. */
  function ActionToTarget(action: string, m: ActionMap): (target: int)
    requires action in Names(m)
  {
    var r := m[IndexOf(m, action)];
    (r.low + r.high) / 2
  }

  /** The midpoint of an action's range lies in that range; so on a partition of `[0, n)` it lies in `[0, n)`. */
  lemma {:induction false} TargetInRange(action: string, m: ActionMap, n: int)
    requires action in Names(m) && Partitions(m, n)
    ensures Contains(m[IndexOf(m, action)], ActionToTarget(action, m))
    ensures 0 <= ActionToTarget(action, m) < n
  {
    var i := IndexOf(m, action);
    PartitionBounds(m, n, i);
  }

  /** Every range of a partition of `[0, n)` lies inside `[0, n)`. */
  lemma PartitionBounds(m: ActionMap, n: int, i: nat)
    requires Partitions(m, n) && i < |m|
    ensures 0 <= m[i].low && m[i].high <= n
  {
    PartitionOrdered(m, n, 0, i);
    PartitionOrdered(m, n, i, |m| - 1);
  }

  /** Ranges of a partition come in increasing order: the one at `i` ends no later than the one at `j >= i` starts, or is it. */
  lemma {:induction false} PartitionOrdered(m: ActionMap, n: int, i: nat, j: nat)
    requires Partitions(m, n) && i <= j < |m|
    ensures m[i].low <= m[j].low && m[i].high <= m[j].high
    ensures i < j ==> m[i].high <= m[j].low
    decreases j - i
  {
    if i < j {
      PartitionOrdered(m, n, i + 1, j);
    }
  }

  /** On a partition of `[0, n)` each phenotype in `[0, n)` lies in exactly one range. */
  lemma PartitionUnique(m: ActionMap, n: int, p: int)
    requires Partitions(m, n) && 0 <= p < n
    ensures FirstMatch(m, p) < |m|
    ensures forall j :: 0 <= j < |m| && Contains(m[j], p) ==> j == FirstMatch(m, p)
  {
    var i := FirstMatch(m, p);
    if i == |m| {
      Covered(m, n, p, |m| - 1);
    }
    forall j | 0 <= j < |m| && Contains(m[j], p) ensures j == i {
      if j < i {
      } else if i < j {
        PartitionOrdered(m, n, i, j);
      }
    }
  }

  /** Below the end of range `k`, some range up to `k` holds the phenotype. */
  lemma {:induction false} Covered(m: ActionMap, n: int, p: int, k: nat)
    requires Partitions(m, n) && k < |m| && 0 <= p < m[k].high
    ensures exists j :: 0 <= j <= k && Contains(m[j], p)
  {
    if !Contains(m[k], p) {
      assert p < m[k].low;
      Covered(m, n, p, k - 1);
    }
  }

  /** A phenotype inside an action's range is read as that action. */
  lemma ActionForRange(m: ActionMap, n: int, i: nat, p: int)
    requires Partitions(m, n) && i < |m| && Contains(m[i], p)
    ensures ActionFor(m, p) == m[i].name
  {
    PartitionBounds(m, n, i);
    PartitionUnique(m, n, p);
  }

  /** A phenotype outside `[0, n)` falls back to the first key. */
  lemma ActionForOutside(m: ActionMap, n: int, p: int)
    requires Partitions(m, n) && !(0 <= p < n)
    ensures ActionFor(m, p) == m[0].name
  {
    forall j | 0 <= j < |m| ensures !Contains(m[j], p) {
      PartitionBounds(m, n, j);
    }
  }

  /** Round trip: the midpoint of an action's range is read back as that action. */
  lemma RoundTrip(m: ActionMap, n: int, action: string)
    requires Partitions(m, n) && action in Names(m)
    ensures ActionFor(m, ActionToTarget(action, m)) == action
  {
    TargetInRange(action, m, n);
    ActionForRange(m, n, IndexOf(m, action), ActionToTarget(action, m));
  }

  /** Both maps split the 1024 phenotypes into contiguous, disjoint half-open ranges. */
  lemma MapsPartition()
    ensures Partitions(TwoChoiceMap, MaxPhenotype)
    ensures Partitions(GridMap, MaxPhenotype)
  {
    TwoChoicePartition();
    GridPartition();
  }

  lemma TwoChoicePartition()
    ensures Partitions(TwoChoiceMap, MaxPhenotype)
  {
  }

  lemma GridPartition()
    ensures Partitions(GridMap, MaxPhenotype)
  {
  }

  /** The maps' keys are the responses of the two environments. */
  lemma MapsMatchEnvironments()
    ensures Names(TwoChoiceMap) == TwoChoice.Actions
    ensures Names(GridMap) == GridChamber.Actions
  {
  }

  /** Range boundaries and midpoints of the two maps. */
  lemma MapExamples()
    ensures ActionFor(TwoChoiceMap, 511) == "choice_a" && ActionFor(TwoChoiceMap, 512) == "choice_b"
    ensures ActionFor(GridMap, 170) == "up" && ActionFor(GridMap, 171) == "down"
    ensures "choice_a" in Names(TwoChoiceMap) && ActionToTarget("choice_a", TwoChoiceMap) == 256
    ensures "choice_b" in Names(TwoChoiceMap) && ActionToTarget("choice_b", TwoChoiceMap) == 768
    ensures "up" in Names(GridMap) && ActionToTarget("up", GridMap) == 85
    ensures "press_lever" in Names(GridMap) && ActionToTarget("press_lever", GridMap) == 939
  {
    MapsPartition();
    ActionForRange(TwoChoiceMap, MaxPhenotype, 0, 511);
    ActionForRange(TwoChoiceMap, MaxPhenotype, 1, 512);
    ActionForRange(GridMap, MaxPhenotype, 0, 170);
    ActionForRange(GridMap, MaxPhenotype, 1, 171);
    assert Names(TwoChoiceMap)[1] == "choice_b";
    assert Names(GridMap)[5] == "press_lever";
  }

  /** The map an agent reads with: the grid map for `"grid_chamber"`, the two-choice map for any other type. */
  function MapFor(environmentType: string): (m: ActionMap)
    ensures Partitions(m, MaxPhenotype)
    ensures environmentType == "grid_chamber" ==> Names(m) == GridChamber.Actions
    ensures environmentType != "grid_chamber" ==> Names(m) == TwoChoice.Actions
  {
    MapsPartition();
    MapsMatchEnvironments();
    if environmentType == "grid_chamber" then GridMap else TwoChoiceMap
  }

  /**
   * What one `update` makes of a population on the ring: a credited step
   * breeds a generation selected for the middle of the action's range, any
   * other step a generation of drift. Either way the size is one child per
   * draw and every child is on the ring.
   */
  function Learned(m: ActionMap, population: seq<int>, action: string, credited: bool,
                   decay: real, rate: real, draws: seq<ChildDraw>): (g: seq<int>)
    requires |population| > 0 && OnRing(population) && ValidDraws(draws) && 0.0 <= decay
    requires credited ==> action in Names(m) && Partitions(m, MaxPhenotype)
    ensures |g| == |draws| && OnRing(g)
  {
    if credited then
      var target := ActionToTarget(action, m);
      TargetInRange(action, m, MaxPhenotype);
      RingSelectable(population, target, decay);
      GenerationOnRing(population, target, MaxPhenotype, decay, rate, draws);
      Generation(population, target, MaxPhenotype, decay, rate, draws)
    else
      DriftedOnRing(population, rate, draws);
      Drifted(population, rate, draws)
  }

  /** `get_params()`. */
  datatype Params = Params(populationSize: int, mutationRate: real, fitnessDecay: real, environmentType: string)

  class ETBDAgent {
    const populationSize: int
    const mutationRate: real
    const fitnessDecay: real
    const environmentType: string
    const actionMap: ActionMap
    const organism: Organism

    /** The agent's map follows its environment type and its organism has its settings, on all 1024 phenotypes. */
    ghost predicate Valid()
      reads this, organism
    {
      organism.Valid()
      && actionMap == MapFor(environmentType)
      && organism.populationSize == populationSize
      && organism.mutationRate == mutationRate
      && organism.fitnessDecay == fitnessDecay && 0.0 <= fitnessDecay
      && organism.maxPhenotype == MaxPhenotype
    }

    /** `ETBDAgent(population_size, mutation_rate, fitness_decay, environment_type)`; `draws` seed the organism's first population. */
    constructor (populationSize: int, mutationRate: real, fitnessDecay: real, environmentType: string, draws: seq<real>)
      requires populationSize >= 1 && 0.0 <= fitnessDecay
      requires |draws| == populationSize && forall i :: 0 <= i < |draws| ==> IsUnit(draws[i])
      ensures Valid() && fresh(organism)
      ensures this.populationSize == populationSize && this.mutationRate == mutationRate
      ensures this.fitnessDecay == fitnessDecay && this.environmentType == environmentType
      ensures actionMap == MapFor(environmentType)
      ensures organism.population == InitialPopulation(draws, MaxPhenotype)
    {
      this.populationSize := populationSize;
      this.mutationRate := mutationRate;
      this.fitnessDecay := fitnessDecay;
      this.environmentType := environmentType;
      actionMap := MapFor(environmentType);
      organism := new Organism(populationSize, mutationRate, fitnessDecay, MaxPhenotype, draws);
    }

    /**
     * `select_action(state, available_actions)`: the action of the emitted
     * phenotype. The offered actions are not consulted; the answer is always
     * a key of the agent's map, and the fallback is never needed.
     */
    method SelectAction(u: real) returns (action: string)
      requires Valid() && IsUnit(u)
      ensures action == ActionFor(actionMap, organism.population[UniformIndex(u, |organism.population|)])
      ensures action in Names(actionMap)
      ensures exists i :: 0 <= i < |actionMap| && actionMap[i].name == action
                && Contains(actionMap[i], organism.population[UniformIndex(u, |organism.population|)])
    {
      var phenotype := organism.Emit(u);
      action := PhenotypeToAction(phenotype, actionMap);
      PartitionUnique(actionMap, MaxPhenotype, phenotype);
    }

    /**
     * `update(state, action, reinforced, next_state, magnitude)`: a
     * reinforced step with a positive magnitude breeds a generation selected
     * for the middle of the action's range; any other step drifts. The
     * reinforced action must be a key of the map.
     */
    method Update(action: string, reinforced: bool, magnitude: real, draws: seq<ChildDraw>)
      requires Valid() && |draws| == populationSize && ValidDraws(draws)
      requires reinforced && magnitude > 0.0 ==> action in Names(actionMap)
      modifies organism
      ensures Valid()
      ensures organism.population == Learned(actionMap, old(organism.population), action, reinforced && magnitude > 0.0,
                                             fitnessDecay, mutationRate, draws)
    {
      if reinforced && magnitude > 0.0 {
        var target := ActionToTarget(action, actionMap);
        TargetInRange(action, actionMap, MaxPhenotype);
        RingSelectable(organism.population, target, fitnessDecay);
        organism.Reinforce(target, draws);
      } else {
        organism.Drift(draws);
      }
    }

    /** `reset()`: the organism draws a fresh population. */
    method Reset(draws: seq<real>)
      requires Valid()
      requires |draws| == populationSize && forall i :: 0 <= i < |draws| ==> IsUnit(draws[i])
      modifies organism
      ensures Valid()
      ensures organism.population == InitialPopulation(draws, MaxPhenotype)
    {
      organism.Reset(draws);
    }

    function GetParams(): (p: Params)
      reads this
      ensures p.populationSize == populationSize && p.mutationRate == mutationRate
      ensures p.fitnessDecay == fitnessDecay && p.environmentType == environmentType
    {
      Params(populationSize, mutationRate, fitnessDecay, environmentType)
    }
  }
}
