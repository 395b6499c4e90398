/**
 * The MPR agent (Killeen's mathematical principles of reinforcement). It
 * counts responses and reinforcements per action; an action's coupling is
 * a function of its reinforcements per response, never below a floor. Two
 * options are chosen by the matching law, more by a softmax over the
 * couplings. `exp` is left uninterpreted: it is a parameter, assumed
 * positive.
 */
module MPR {
  import opened Support
  import opened Draws
  import opened Selection

  /** FR and VR couple exponentially, every other schedule type hyperbolically. */
  predicate IsRatio(scheduleType: string)
  {
    scheduleType == "FR" || scheduleType == "VR"
  }

  /** Reinforcements per response. */
  function Rate(reinf: int, count: int): (r: real)
    requires count > 0
    ensures 0 <= reinf <= count ==> 0.0 <= r <= 1.0
  {
    reinf as real / count as real
  }

  /** `1e-10`, the least rate the exponential coupling divides by. */
  const MinRate: real := 0.0000000001

  /** `a * exp(-b / max(R, 1e-10))`. */
  function Exponential(a: real, b: real, r: real, exp: real -> real): real
  {
    a * exp(-b / MaxReal(r, MinRate))
  }

  /** `a * R / (R + b)`. */
  function Hyperbolic(a: real, b: real, r: real): real
    requires r + b != 0.0
  {
    a * r / (r + b)
  }

  /**
   * `_get_coupling(action)` given the step total and the action's response
   * and reinforcement counts: the floor before any step or response, else
   * the schedule type's coupling of the rate, raised to the floor.
   */
  function Coupling(ratio: bool, a: real, b: real, floor: real, exp: real -> real,
                    totalSteps: int, count: int, reinf: int): (c: real)
    requires b > 0.0 && 0 <= reinf && 0 <= count
    ensures c >= floor
    ensures totalSteps == 0 || count == 0 ==> c == floor
  {
    if totalSteps == 0 || count == 0 then floor
    else
      var r := Rate(reinf, count);
      MaxReal(if ratio then Exponential(a, b, r, exp) else Hyperbolic(a, b, r), floor)
  }

  /** Once the action has responses, the coupling is the schedule type's formula of `R = reinf / count`, floored. */
  lemma CouplingFormula(ratio: bool, a: real, b: real, floor: real, exp: real -> real, totalSteps: int, count: int, reinf: int)
    requires b > 0.0 && 0 <= reinf && totalSteps != 0 && count > 0
    ensures var r := reinf as real / count as real;
            ratio ==> Coupling(ratio, a, b, floor, exp, totalSteps, count, reinf) == MaxReal(a * exp(-b / MaxReal(r, MinRate)), floor)
    ensures var r := reinf as real / count as real;
            !ratio ==> Coupling(ratio, a, b, floor, exp, totalSteps, count, reinf) == MaxReal(a * r / (r + b), floor)
  {
  }

  lemma Quotient(r: real, b: real)
    requires r >= 0.0 && b > 0.0
    ensures r / (r + b) == 1.0 - b / (r + b)
    ensures 0.0 <= r / (r + b) < 1.0
  {
    var t := r + b;
    assert r / t + b / t == t / t == 1.0;
    DivNonNegative(r, t);
    assert b / t > 0.0;
  }

  /** A part over a positive whole is a share in `[0, 1]`. */
  lemma Share(x: real, t: real)
    requires 0.0 <= x <= t && t > 0.0
    ensures 0.0 <= x / t <= 1.0
  {
    DivNonNegative(x, t);
    assert x / t * t == x;
  }

  /** A larger divisor of a positive numerator gives a smaller quotient. */
  lemma DivAntitone(b: real, x: real, y: real)
    requires b > 0.0 && 0.0 < x <= y
    ensures b / y <= b / x
  {
    assert b / y * y == b == b / x * x;
  }

  /** The hyperbolic coupling grows with the rate and stays below `a`. */
  lemma HyperbolicMonotone(a: real, b: real, r1: real, r2: real)
    requires a > 0.0 && b > 0.0 && 0.0 <= r1 <= r2
    ensures Hyperbolic(a, b, r1) <= Hyperbolic(a, b, r2) < a
  {
    Quotient(r1, b);
    Quotient(r2, b);
    DivAntitone(b, r1 + b, r2 + b);
    var q1, q2 := r1 / (r1 + b), r2 / (r2 + b);
    assert q1 <= q2 < 1.0;
    assert a * r1 / (r1 + b) == a * q1;
    assert a * r2 / (r2 + b) == a * q2;
    MulMonotone(a, q1, q2);
    MulMonotone(a, q2, 1.0);
  }

  lemma MulMonotone(a: real, x: real, y: real)
    requires a > 0.0 && x <= y
    ensures a * x <= a * y
    ensures x < y ==> a * x < a * y
  {
  }

  /** With a positive `exp` and a positive `a`, the exponential coupling is positive. */
  lemma ExponentialPositive(a: real, b: real, r: real, exp: real -> real)
    requires a > 0.0 && forall x :: exp(x) > 0.0
    ensures Exponential(a, b, r, exp) > 0.0
  {
    var e := exp(-b / MaxReal(r, MinRate));
    MulPositive(a, e);
  }

  /** The couplings of the formulas' examples: rate 0.5 with `a = 1, b = 0.5` (ratio) and rate 0.2 with `a = 2, b = 0.5` (interval). */
  lemma CouplingExamples(exp: real -> real)
    ensures Coupling(true, 1.0, 0.5, 0.0, exp, 10, 10, 5) == MaxReal(exp(-1.0), 0.0)
    ensures Coupling(false, 2.0, 0.5, 0.0, exp, 10, 10, 2) == 4.0 / 7.0
  {
    assert Rate(5, 10) == 0.5;
    assert Rate(2, 10) == 0.2;
  }

  /**
   * The matching law for two options: the first with probability
   * `C_a / (C_a + C_b)`. A zero total divides by zero (`None`).
   */
  function MatchingChoice(ca: real, cb: real, a: string, b: string, u: real): (r: Option<string>)
    ensures r.None? <==> ca + cb == 0.0
  {
    if ca + cb == 0.0 then None
    else Some(if u < ca / (ca + cb) then a else b)
  }

  /** Two distinct options: the first is chosen exactly when the draw falls below its share, a probability in `[0, 1]`. */
  lemma MatchingLaw(ca: real, cb: real, a: string, b: string, u: real)
    requires ca >= 0.0 && cb >= 0.0 && ca + cb > 0.0 && a != b
    ensures 0.0 <= ca / (ca + cb) <= 1.0
    ensures MatchingChoice(ca, cb, a, b, u) == Some(a) <==> u < ca / (ca + cb)
    ensures MatchingChoice(ca, cb, a, b, u) == Some(b) <==> !(u < ca / (ca + cb))
  {
    Share(ca, ca + cb);
  }

  /** Equal couplings give even odds. */
  lemma MatchingEven(c: real, a: string, b: string, u: real)
    requires c > 0.0 && a != b
    ensures MatchingChoice(c, c, a, b, u) == Some(a) <==> u < 0.5
  {
    assert c / (c + c) == 0.5;
  }

  /** `max` of a non-empty list of values. */
  function MaxSeq(xs: seq<real>): (m: real)
    requires |xs| > 0
    ensures forall i :: 0 <= i < |xs| ==> xs[i] <= m
    ensures exists i :: 0 <= i < |xs| && xs[i] == m
  {
    if |xs| == 1 then xs[0]
    else
      var rest := MaxSeq(xs[1..]);
      assert forall i :: 1 <= i < |xs| ==> xs[i] == xs[1..][i - 1];
      MaxReal(xs[0], rest)
  }

  /**
   * The softmax probabilities: values over the temperature, less their
   * maximum, through `exp`, normalised by their sum.
   */
  function Softmax(values: seq<real>, temperature: real, exp: real -> real): (p: seq<real>)
    requires |values| > 0 && temperature != 0.0 && forall x :: exp(x) > 0.0
    ensures |p| == |values|
    ensures forall i :: 0 <= i < |p| ==> p[i] >= 0.0
    ensures Sum(p) == 1.0
  {
    var scaled := seq(|values|, i requires 0 <= i < |values| => values[i] / temperature);
    var m := MaxSeq(scaled);
    var e := seq(|values|, i requires 0 <= i < |values| => exp(scaled[i] - m));
    assert e[0] > 0.0;
    NotAllZero(e, 0);
    NormalizeIsDistribution(e);
    Normalize(e, Sum(e))
  }

  /** What configures the agent, as `get_params()` reports it. */
  datatype Params = Params(environmentType: string, initialArousal: real, activationDecay: real,
                           couplingFloor: real, scheduleType: string, temperature: real)

  /**
   * The counters agree: every response count is positive, no action has
   * more reinforcements than responses, and the counts add up to the steps.
   */
  ghost predicate Consistent(counts: map<string, int>, reinf: map<string, int>, totalSteps: int)
  {
    (forall k :: k in counts ==> counts[k] >= 1)
    && (forall k :: k in reinf ==> k in counts && 0 <= reinf[k] <= counts[k])
    && SumValues(counts) == totalSteps
  }

  /** Counting one more step keeps the counters consistent. */
  lemma UpdateConsistent(counts: map<string, int>, reinf: map<string, int>, totalSteps: int, action: string, credited: bool)
    requires Consistent(counts, reinf, totalSteps)
    ensures Consistent(Increment(counts, action), if credited then Increment(reinf, action) else reinf, totalSteps + 1)
  {
    SumValuesIncrement(counts, action);
  }

  /** Consistent counters give every action a rate in `[0, 1]` and never more reinforcements than steps. */
  lemma ConsistentRates(counts: map<string, int>, reinf: map<string, int>, totalSteps: int, action: string)
    requires Consistent(counts, reinf, totalSteps)
    ensures 0 <= Get(reinf, action) <= Get(counts, action) <= totalSteps
    ensures Get(counts, action) > 0 ==> 0.0 <= Rate(Get(reinf, action), Get(counts, action)) <= 1.0
  {
    SumValuesNonNegative(counts);
    if action in counts {
      SumValuesRemove(counts, action);
      SumValuesNonNegative(counts - {action});
    }
  }

  class MPRAgent {
    const environmentType: string
    const initialArousal: real
    const activationDecay: real
    const couplingFloor: real
    const learningRate: real
    const scheduleType: string
    const temperature: real
    /** numpy's `exp`, left uninterpreted. */
    const exp: real -> real
    var actionCounts: map<string, int>
    var reinforcementCounts: map<string, int>
    var totalSteps: int

    ghost predicate Valid()
      reads this
    {
      initialArousal > 0.0 && activationDecay > 0.0 && couplingFloor >= 0.0 && temperature > 0.0
      && (forall x :: exp(x) > 0.0)
      && Consistent(actionCounts, reinforcementCounts, totalSteps)
    }

    /** `MPRAgent(environment_type, initial_arousal, activation_decay, coupling_floor, learning_rate, schedule_type, temperature)`. */
    constructor (environmentType: string, initialArousal: real, activationDecay: real, couplingFloor: real,
                 learningRate: real, scheduleType: string, temperature: real, exp: real -> real)
      requires initialArousal > 0.0 && activationDecay > 0.0 && couplingFloor >= 0.0 && temperature > 0.0
      requires forall x :: exp(x) > 0.0
      ensures Valid()
      ensures this.environmentType == environmentType && this.scheduleType == Upper(scheduleType)
      ensures this.initialArousal == initialArousal && this.activationDecay == activationDecay
      ensures this.couplingFloor == couplingFloor && this.learningRate == learningRate
      ensures this.temperature == temperature && this.exp == exp
      ensures actionCounts == map[] && reinforcementCounts == map[] && totalSteps == 0
    {
      this.environmentType := environmentType;
      this.initialArousal := initialArousal;
      this.activationDecay := activationDecay;
      this.couplingFloor := couplingFloor;
      this.learningRate := learningRate;
      this.scheduleType := Upper(scheduleType);
      this.temperature := temperature;
      this.exp := exp;
      actionCounts := map[];
      reinforcementCounts := map[];
      totalSteps := 0;
    }

    /** `_get_coupling(action)`. */
    function GetCoupling(action: string): (c: real)
      reads this
      requires Valid()
      ensures c >= couplingFloor
      ensures totalSteps == 0 || action !in actionCounts ==> c == couplingFloor
    {
      ConsistentRates(actionCounts, reinforcementCounts, totalSteps, action);
      Coupling(IsRatio(scheduleType), initialArousal, activationDecay, couplingFloor, exp,
               totalSteps, Get(actionCounts, action), Get(reinforcementCounts, action))
    }

    /**
     * `select_action(state, available_actions)` with its one draw: the
     * matching law when the agent is for the two-choice chamber and two
     * actions are offered (`None` when both couplings are 0, where Python
     * divides by zero), a softmax draw otherwise.
     */
    function SelectAction(actions: seq<string>, u: real): (r: Option<string>)
      reads this
      requires Valid() && |actions| > 0 && IsUnit(u)
      ensures r.Some? ==> r.value in actions
      ensures environmentType == "two_choice" && |actions| == 2 ==>
                r == MatchingChoice(GetCoupling(actions[0]), GetCoupling(actions[1]), actions[0], actions[1], u)
      ensures !(environmentType == "two_choice" && |actions| == 2) ==>
                r.Some? && r.value == actions[WeightedIndex(Softmax(Couplings(actions), temperature, exp), u)]
      ensures couplingFloor > 0.0 ==> r.Some?
    {
      if environmentType == "two_choice" && |actions| == 2 then
        MatchingChoice(GetCoupling(actions[0]), GetCoupling(actions[1]), actions[0], actions[1], u)
      else
        Some(actions[WeightedIndex(Softmax(Couplings(actions), temperature, exp), u)])
    }

    /** `[couplings[a] for a in available_actions]`. */
    function Couplings(actions: seq<string>): (cs: seq<real>)
      reads this
      requires Valid()
      ensures |cs| == |actions|
      ensures forall i :: 0 <= i < |actions| ==> cs[i] == GetCoupling(actions[i]) && cs[i] >= couplingFloor
    {
      if actions == [] then [] else [GetCoupling(actions[0])] + Couplings(actions[1..])
    }

    /**
     * `update(state, action, reinforced, next_state, magnitude)`: one more
     * step, one more response of the action, and one more reinforcement of
     * it iff reinforced with a positive magnitude.
     */
    method Update(action: string, reinforced: bool, magnitude: real)
      requires Valid()
      modifies this
      ensures Valid()
      ensures totalSteps == old(totalSteps) + 1
      ensures actionCounts == Increment(old(actionCounts), action)
      ensures reinforcementCounts == if reinforced && magnitude > 0.0 then Increment(old(reinforcementCounts), action)
                                     else old(reinforcementCounts)
    {
      UpdateConsistent(actionCounts, reinforcementCounts, totalSteps, action, reinforced && magnitude > 0.0);
      totalSteps := totalSteps + 1;
      actionCounts := actionCounts[action := Get(actionCounts, action) + 1];
      if reinforced && magnitude > 0.0 {
        reinforcementCounts := reinforcementCounts[action := Get(reinforcementCounts, action) + 1];
      }
    }

    /** `reset()`: no counts and no steps. */
    method Reset()
      requires Valid()
      modifies this
      ensures Valid()
      ensures actionCounts == map[] && reinforcementCounts == map[] && totalSteps == 0
    {
      actionCounts := map[];
      reinforcementCounts := map[];
      totalSteps := 0;
    }

    function GetParams(): (p: Params)
      reads this
      ensures p == Params(environmentType, initialArousal, activationDecay, couplingFloor, scheduleType, temperature)
    {
      Params(environmentType, initialArousal, activationDecay, couplingFloor, scheduleType, temperature)
    }
  }
}
