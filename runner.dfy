/**
 * The simulation runner: reset the agent, then the environment, and let the
 * agent act until the environment reports the session done, recording every
 * step and tallying reinforcements and the actions actually taken.
 */
module Runner {
  import opened Support
  import opened Draws
  import opened StepResults
  import Fitness
  import Organisms
  import TwoChoice
  import GridChamber
  import QLearning
  import ETBD
  import MPR

  /** The random draws one step takes: the agent's choice, a schedule redraw, and a generation's children. */
  datatype StepDraws = StepDraws(explore: real, pick: real, schedule: real, children: seq<Organisms.ChildDraw>)

  /** The draws of the resets: a new ETBD population and the schedules' first VR or VI thresholds. */
  datatype ResetDraws = ResetDraws(population: seq<real>, scheduleA: real, scheduleB: real)

  /** The agent of a run, whichever of the three kinds it is. */
  datatype Agent =
    | QAgent(q: QLearning.QLearningAgent)
    | ETBDAgent(e: ETBD.ETBDAgent)
    | MPRAgent(m: MPR.MPRAgent)
  {
    ghost function Repr(): set<object>
    {
      match this
      case QAgent(q) => {q}
      case ETBDAgent(e) => {e, e.organism}
      case MPRAgent(m) => {m}
    }

    ghost predicate Valid()
      reads Repr()
    {
      match this
      case QAgent(_) => true
      case ETBDAgent(e) => e.Valid()
      case MPRAgent(m) => m.Valid()
    }

    /** The draws fit the agent: unit variates, and one child draw per member of an ETBD population. */
    predicate FitsStep(d: StepDraws)
    {
      IsUnit(d.explore) && IsUnit(d.pick)
      && (ETBDAgent? ==> |d.children| == e.populationSize && Organisms.ValidDraws(d.children))
    }

    predicate FitsReset(d: ResetDraws)
    {
      ETBDAgent? ==> |d.population| == e.populationSize && forall i :: 0 <= i < |d.population| ==> IsUnit(d.population[i])
    }

    /** The agent's `name`. */
    function Name(): string
    {
      match this
      case QAgent(_) => "q_learning"
      case ETBDAgent(_) => "etbd"
      case MPRAgent(_) => "mpr"
    }

    method Reset(d: ResetDraws)
      requires Valid() && FitsReset(d)
      modifies Repr()
      ensures Valid()
      ensures QAgent? ==> q.qTable == map[] && q.history == []
      ensures ETBDAgent? ==> e.organism.population == Organisms.InitialPopulation(d.population, Fitness.MaxPhenotype)
      ensures MPRAgent? ==> m.actionCounts == map[] && m.reinforcementCounts == map[] && m.totalSteps == 0
    {
      match this
      case QAgent(q) => q.Reset();
      case ETBDAgent(e) => e.Reset(d.population);
      case MPRAgent(m) => m.Reset();
    }

    /**
     * `select_action(state, available_actions)`. The ETBD agent answers
     * with a key of its own map; the others with an offered action; the
     * MPR agent may divide by zero (`None`).
     */
    method SelectAction(state: Value, actions: seq<string>, d: StepDraws) returns (r: Option<string>)
      requires Valid() && FitsStep(d) && |actions| > 0
      modifies Repr()
      ensures Valid()
      ensures r.None? ==> MPRAgent?
      ensures r.Some? && !ETBDAgent? ==> r.value in actions
      ensures r.Some? && ETBDAgent? ==> r.value in ETBD.Names(e.actionMap)
    {
      match this
      case QAgent(q) =>
        var a := q.SelectAction(state, actions, d.explore, d.pick);
        r := Some(a);
      case ETBDAgent(e) =>
        var a := e.SelectAction(d.pick);
        r := Some(a);
      case MPRAgent(m) =>
        r := m.SelectAction(actions, d.pick);
    }

    /** `update(state, action, reinforced, next_state)`, with the default magnitude 1.0 where there is one. */
    method Update(state: Value, action: string, reinforced: bool, nextState: Value, d: StepDraws)
      requires Valid() && FitsStep(d)
      requires ETBDAgent? && reinforced ==> action in ETBD.Names(e.actionMap)
      modifies Repr()
      ensures Valid()
      ensures QAgent? ==> q.history == old(q.history) + [action]
      ensures QAgent? ==>
                q.qTable == QLearning.Updated(old(q.qTable), QLearning.StateKey(q.useHistoryState, q.history, q.historyWindow, state),
                                              QLearning.StateKey(q.useHistoryState, q.history, q.historyWindow, nextState),
                                              action, q.alpha, q.gamma, if reinforced then 1.0 else 0.0)
      ensures ETBDAgent? ==>
                e.organism.population == ETBD.Learned(e.actionMap, old(e.organism.population), action, reinforced,
                                                      e.fitnessDecay, e.mutationRate, d.children)
      ensures MPRAgent? ==> m.totalSteps == old(m.totalSteps) + 1 && m.actionCounts == Increment(old(m.actionCounts), action)
      ensures MPRAgent? ==>
                m.reinforcementCounts == if reinforced then Increment(old(m.reinforcementCounts), action) else old(m.reinforcementCounts)
    {
      match this
      case QAgent(q) => q.Update(state, action, reinforced, nextState);
      case ETBDAgent(e) => e.Update(action, reinforced, 1.0, d.children);
      case MPRAgent(m) => m.Update(action, reinforced, 1.0);
    }
  }

  /** The environment of a run. */
  datatype Environment =
    | TwoChoiceEnv(t: TwoChoice.TwoChoiceEnvironment)
    | GridEnv(g: GridChamber.GridChamberEnvironment)
  {
    ghost function Repr(): set<object>
    {
      match this
      case TwoChoiceEnv(t) => t.Repr()
      case GridEnv(g) => g.Repr()
    }

    ghost predicate Valid()
      reads Repr()
    {
      match this
      case TwoChoiceEnv(t) => t.Valid()
      case GridEnv(g) => true
    }

    function MaxSteps(): int
    {
      match this
      case TwoChoiceEnv(t) => t.maxSteps
      case GridEnv(g) => g.maxSteps
    }

    function StepCount(): int
      reads Repr()
    {
      match this
      case TwoChoiceEnv(t) => t.stepCount
      case GridEnv(g) => g.stepCount
    }

    /** The environment's `name`. */
    function Name(): string
    {
      match this
      case TwoChoiceEnv(_) => "two_choice"
      case GridEnv(_) => "grid_chamber"
    }

    function AvailableActions(): (actions: seq<string>)
      ensures |actions| > 0
    {
      match this
      case TwoChoiceEnv(t) => t.AvailableActions()
      case GridEnv(g) => g.AvailableActions()
    }

    /** Every grid visit is counted once, the start included. */
    ghost predicate VisitsConsistent()
      reads Repr()
    {
      GridEnv? ==> g.VisitsConsistent()
    }

    method Reset(d: ResetDraws) returns (state: Value)
      requires Valid()
      modifies Repr()
      ensures Valid() && StepCount() == 0 && VisitsConsistent()
    {
      match this
      case TwoChoiceEnv(t) => state := t.Reset(d.scheduleA, d.scheduleB);
      case GridEnv(g) => state := g.Reset(d.scheduleA);
    }

    /** `step(action)`: one more step, done once the count reaches the maximum; only an action taken as asked is reinforced. */
    method Step(action: string, draw: real) returns (r: StepResult)
      requires Valid()
      modifies Repr()
      ensures Valid()
      ensures StepCount() == old(StepCount()) + 1
      ensures r.done <==> StepCount() >= MaxSteps()
      ensures r.reinforced ==> r.actionTaken == action
      ensures old(VisitsConsistent()) ==> VisitsConsistent()
      ensures TwoChoiceEnv? ==>
                r.reinforced == TwoChoice.Reinforces(old(t.scheduleA.State()), old(t.scheduleB.State()), action)
      ensures GridEnv? ==> g.visitCounts == Increment(old(g.visitCounts), g.pos) && r.state == CellValue(g.pos)
    {
      match this
      case TwoChoiceEnv(t) => r := t.Step(action, draw);
      case GridEnv(g) => r := g.Step(action, draw);
    }
  }

  /** One entry of the run's `steps` list. */
  datatype StepRecord = StepRecord(step: int, state: Value, action: string, reinforced: bool, scheduleId: string)

  /** The number of reinforced steps among the records. */
  function Reinforcements(records: seq<StepRecord>): (n: nat)
    ensures n <= |records|
  {
    if records == [] then 0
    else Reinforcements(records[..|records| - 1]) + (if records[|records| - 1].reinforced then 1 else 0)
  }

  /** `action_counts`: how often each action was taken, in order of the records. */
  function Tally(records: seq<StepRecord>): map<string, int>
  {
    if records == [] then map[]
    else Increment(Tally(records[..|records| - 1]), records[|records| - 1].action)
  }

  /** The number of records whose action taken is `a`. */
  function Occurrences(records: seq<StepRecord>, a: string): (n: nat)
    ensures n <= |records|
  {
    if records == [] then 0
    else Occurrences(records[..|records| - 1], a) + (if records[|records| - 1].action == a then 1 else 0)
  }

  /** The tally counts each action exactly as often as it was taken, and holds no other action. */
  lemma {:induction false} TallyCounts(records: seq<StepRecord>, a: string)
    ensures Get(Tally(records), a) == Occurrences(records, a)
    ensures a in Tally(records) <==> Occurrences(records, a) > 0
  {
    if records != [] {
      TallyCounts(records[..|records| - 1], a);
    }
  }

  /** The tallied counts add up to the number of steps. */
  lemma {:induction false} TallySum(records: seq<StepRecord>)
    ensures SumValues(Tally(records)) == |records|
  {
    if records == [] {
    } else {
      var front := records[..|records| - 1];
      TallySum(front);
      SumValuesIncrement(Tally(front), records[|records| - 1].action);
    }
  }

  /** Appending a record extends the count, the tally and the numbering by that record alone. */
  lemma Appended(records: seq<StepRecord>, record: StepRecord)
    requires Numbered(records) && record.step == |records| + 1
    ensures Numbered(records + [record])
    ensures Reinforcements(records + [record]) == Reinforcements(records) + (if record.reinforced then 1 else 0)
    ensures Tally(records + [record]) == Increment(Tally(records), record.action)
  {
    assert (records + [record])[..|records|] == records;
  }

  /** `total_reinforcements / step_num if step_num > 0 else 0`. */
  function RateOf(reinforcements: int, steps: int): (rate: real)
    ensures 0 <= reinforcements <= steps ==> 0.0 <= rate <= 1.0
  {
    if steps > 0 then reinforcements as real / steps as real else 0.0
  }

  /** The parameters the agent reports. */
  datatype AgentParams = QParams(q: QLearning.Params) | ETBDParams(e: ETBD.Params) | MPRParams(m: MPR.Params)

  datatype Summary = Summary(
    totalSteps: int,
    totalReinforcements: int,
    reinforcementRate: real,
    actionCounts: map<string, int>,
    agent: string,
    environment: string,
    agentParams: AgentParams,
    visitCounts: Option<map<(int, int), int>>)

  datatype Config = Config(agent: string, environment: string, agentParams: AgentParams)

  datatype SimulationResult = SimulationResult(config: Config, steps: seq<StepRecord>, summary: Summary)

  /** Records numbered `1, 2, ...` in order. */
  predicate Numbered(records: seq<StepRecord>)
  {
    forall i :: 0 <= i < |records| ==> records[i].step == i + 1
  }

  /** The number of steps a run takes: the maximum, but at least one because the first step always happens. */
  function RunLength(maxSteps: int): (n: int)
    ensures n >= 1 && n >= maxSteps
  {
    Max(1, maxSteps)
  }

  /** `get_params()` of the agent. */
  function ParamsOf(agent: Agent): AgentParams
    reads agent.Repr()
  {
    match agent
    case QAgent(q) => QParams(q.GetParams())
    case ETBDAgent(e) => ETBDParams(e.GetParams())
    case MPRAgent(m) => MPRParams(m.GetParams())
  }

  /** One pass of the loop: the agent chooses, the environment steps, the agent learns from the action taken. */
  method Play(agent: Agent, env: Environment, state: Value, actions: seq<string>, d: StepDraws) returns (r: Option<StepResult>)
    requires agent.Valid() && env.Valid() && agent.FitsStep(d) && |actions| > 0
    requires agent.Repr() !! env.Repr()
    modifies agent.Repr(), env.Repr()
    ensures agent.Valid() && env.Valid()
    ensures r.None? ==> agent.MPRAgent?
    ensures r.Some? ==> env.StepCount() == old(env.StepCount()) + 1
    ensures r.Some? ==> (r.value.done <==> env.StepCount() >= env.MaxSteps())
    ensures r.Some? && old(env.VisitsConsistent()) ==> env.VisitsConsistent()
  {
    var choice := agent.SelectAction(state, actions, d);
    if choice.None? {
      return None;
    }
    var result := env.Step(choice.value, d.schedule);
    agent.Update(state, result.actionTaken, result.reinforced, result.state, d);
    r := Some(result);
  }

  /**
   * `SimulationRunner(agent, environment).run()`: the agent is reset, then
   * the environment; each step the agent acts on the current state, the
   * step is recorded, the agent learns from the action taken and the new
   * state, and the new state carries on. The MPR agent's division by zero
   * ends the run with a `Failure`.
   */
  method Run(agent: Agent, env: Environment, resetDraws: ResetDraws, draws: seq<StepDraws>) returns (r: Result<SimulationResult, string>)
    requires agent.Valid() && env.Valid() && agent.Repr() !! env.Repr()
    requires agent.FitsReset(resetDraws)
    requires |draws| >= RunLength(env.MaxSteps()) && forall k :: 0 <= k < |draws| ==> agent.FitsStep(draws[k])
    modifies agent.Repr(), env.Repr()
    ensures r.Failure? ==> agent.MPRAgent?
    ensures r.Success? ==>
      var res := r.value;
      && |res.steps| == RunLength(env.MaxSteps()) && Numbered(res.steps)
      && res.summary.totalSteps == |res.steps|
      && res.summary.totalReinforcements == Reinforcements(res.steps)
      && res.summary.reinforcementRate == RateOf(Reinforcements(res.steps), |res.steps|)
      && res.summary.actionCounts == Tally(res.steps)
      && res.summary.agent == agent.Name() && res.summary.environment == env.Name()
      && res.summary.visitCounts == (if env.GridEnv? then Some(env.g.visitCounts) else None)
      && res.config == Config(agent.Name(), env.Name(), res.summary.agentParams)
      && res.summary.agentParams == ParamsOf(agent)
    ensures r.Success? && env.GridEnv? ==> SumValues(env.g.visitCounts) == |r.value.steps| + 1
  {
    agent.Reset(resetDraws);
    var state := env.Reset(resetDraws);
    var actions := env.AvailableActions();
    var steps: seq<StepRecord> := [];
    var totalReinforcements := 0;
    var actionCounts: map<string, int> := map[];
    var done := false;
    var stepNum := 0;
    var n := RunLength(env.MaxSteps());
    while !done
      invariant agent.Valid() && env.Valid() && env.VisitsConsistent()
      invariant 0 <= stepNum <= n && env.StepCount() == stepNum
      invariant done <==> stepNum >= n
      invariant |steps| == stepNum && Numbered(steps)
      invariant totalReinforcements == Reinforcements(steps)
      invariant actionCounts == Tally(steps)
      decreases n - stepNum + (if done then 0 else 1)
    {
      var d := draws[stepNum];
      var played := Play(agent, env, state, actions, d);
      if played.None? {
        return Failure("float division by zero");
      }
      var result := played.value;
      stepNum := stepNum + 1;
      if result.reinforced {
        totalReinforcements := totalReinforcements + 1;
      }
      actionCounts := Increment(actionCounts, result.actionTaken);
      var record := StepRecord(stepNum, result.state, result.actionTaken, result.reinforced, result.scheduleId);
      Appended(steps, record);
      steps := steps + [record];
      state := result.state;
      done := result.done;
    }
    var params := ParamsOf(agent);
    var visits := if env.GridEnv? then Some(env.g.visitCounts) else None;
    var summary := Summary(stepNum, totalReinforcements, RateOf(totalReinforcements, stepNum), actionCounts,
                           agent.Name(), env.Name(), params, visits);
    r := Success(SimulationResult(Config(agent.Name(), env.Name(), params), steps, summary));
  }
}
