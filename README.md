# Operant-chamber simulation engine in Dafny

This project models the simulation engine of an operant-conditioning
laboratory. There are four reinforcement schedules: fixed ratio, variable
ratio, fixed interval and variable interval. There are two environments: a
two-choice concurrent chamber and a grid chamber with one lever. There are
three learning agents:

- an ETBD agent (evolutionary theory of behaviour dynamics), with its
  genetic-algorithm organism;
- a tabular Q-learning agent;
- an MPR agent (mathematical principles of reinforcement).

A runner lets an agent act in an environment until the session is done and
summarises the session.

The model keeps the source's form. Schedules, environments, the organism
and the agents are classes with the source's fields and `modifies` clauses.
The mutation loop, the organism's generation loops, the action-map search and
the runner's session loop are `while` loops with invariants. Each method is
proved against a pure specification: a schedule `State` with its
`Ticked`/`Fires`/`AfterCheck` transitions, `Generation`/`Drifted`, `Mutated`,
`ActionFor`, `Updated`, `Coupling`, `Tally`. The lemmas are stated about
those specification functions.

Every random draw is an explicit argument:

- A unit variate in `[0, 1)` stands for `np.random.random()`.
- A uniform index is `floor(u * n)`.
- A weighted index is found by inverse CDF on a unit variate.
- The value returned by `np.random.exponential` is passed in as a real.

A run is therefore a function of its draws. The same draws give the same
trace by construction.

Real numbers stand in for floats. numpy's `exp` is a function-valued
parameter that is only assumed positive.

Modules, one per source file: `Support`, `Draws`, `Schedules`, `StepResults`,
`TwoChoice`, `GridChamber`, `Fitness`, `Bits`, `Recombination`, `Mutation`,
`Selection`, `Organisms`, `ETBD`, `QLearning`, `MPR`, `Runner`.

## Model

| member | source | states |
|---|---|---|
| Support.PyInt | backend/schedules/reinforcement.py:62 | Python's `int()` on a float: the floor for a non-negative value, never positive for a negative one |
| Support.Upper | backend/schedules/reinforcement.py:131 | same length, each character upper-cased |
| Support.UpperIdempotent | backend/agents/mpr.py:36 | upper-casing an upper-cased name changes nothing |
| Support.Increment | backend/simulation/runner.py:50 | `d[k] = d.get(k, 0) + 1`: the key set gains `k`, `k`'s count rises by one, every other count is kept |
| Support.SumValuesIncrement | backend/environments/grid_chamber.py:51-52 | one more count of a key raises the sum of the counts by one |
| Draws.UniformIndex | backend/etbd_internals/organism.py:38 | a uniform index always lies in `[0, n)` |
| Draws.Normalize | backend/etbd_internals/selection.py:30 | `probs = fitnesses / total`, element by element |
| Draws.NormalizeIsDistribution | backend/etbd_internals/selection.py:30-31 | non-negative weights with a positive total give probabilities that are non-negative and sum to 1 |
| Draws.WeightedIndex | backend/etbd_internals/selection.py:31 | a weighted choice returns an index of the list |
| Draws.WeightedIndexInterval | backend/etbd_internals/selection.py:31 | the chosen index is the one whose cumulative interval holds the draw |
| Draws.WeightedIndexPositive | backend/etbd_internals/selection.py:31 | a weighted choice never picks an index of probability zero |
| Schedules.Threshold | backend/schedules/reinforcement.py:60-62 | `max(1, int(draw))`, for VR here and for VI at line 107: at least 1 for every draw, the truncated draw when that is at least 1 |
| Schedules.Initial | backend/schedules/reinforcement.py:37-104 | `reset()` keeps kind and value, zeroes the count or the elapsed time, disarms, and establishes the invariant (FR `0 <= count < value`, VR/VI threshold at least 1) |
| Schedules.Ticked | backend/schedules/reinforcement.py:49-120 | `tick()` leaves FR and VR as they are; for FI/VI, elapsed rises by exactly 1, armed holds iff it held or elapsed reaches the interval (a tick never disarms); the invariant is kept |
| Schedules.Fires | backend/schedules/reinforcement.py:40-115 | `check` never fires on a non-target response; FI/VI fire iff armed and target |
| Schedules.AfterCheck | backend/schedules/reinforcement.py:40-115 | a non-target response changes nothing; a ratio schedule counts up or, when it fires, resets to 0 (VR redraws); an interval schedule that fires disarms and restarts (VI redraws), and one that does not is unchanged; the invariant is kept |
| Schedules.TargetRunFrom | backend/schedules/reinforcement.py:43-47 | FR(n) from count `c` fed only target responses fires on call `i` iff `(c + i + 1) % n == 0` |
| Schedules.FREveryNth | backend/schedules/reinforcement.py:37-47 | after a reset, FR(n) fires on exactly every n-th target response |
| Schedules.FR3Pattern | backend/schedules/reinforcement.py:43-47 | FR(3) gives F, F, T, F, F, T, F, F, T |
| Schedules.TimedRunFrom | backend/schedules/reinforcement.py:85-95 | FI(n) from elapsed `e`, responded to after every tick, fires on step `i` iff `(e + i + 1) % n == 0` |
| Schedules.FIEveryNth | backend/schedules/reinforcement.py:81-95 | after a reset, FI(n) responded to on every step fires on every n-th step |
| Schedules.NonTargetsChangeNothing | backend/schedules/reinforcement.py:40-115 | any number of non-target checks leave a schedule's state as it was |
| Schedules.FRSchedule.constructor | backend/schedules/reinforcement.py:10-12 | a new FR object, reset by the base constructor, is in the initial state |
| Schedules.FRSchedule.Reset | backend/schedules/reinforcement.py:37-38 | the count goes to 0 |
| Schedules.FRSchedule.Check | backend/schedules/reinforcement.py:40-47 | a non-target response returns false and keeps the count; a target response fires iff the raised count reaches the value, which then resets to 0 |
| Schedules.FRSchedule.Tick | backend/schedules/reinforcement.py:49-50 | no change |
| Schedules.VRSchedule.constructor | backend/schedules/reinforcement.py:10-12 | a new VR object, reset by the base constructor, is in the initial state for its draw |
| Schedules.VRSchedule.Reset | backend/schedules/reinforcement.py:56-58 | redraw the ratio and zero the count |
| Schedules.VRSchedule.SetNextRatio | backend/schedules/reinforcement.py:60-62 | the next ratio is `Threshold(draw)`; the count is kept |
| Schedules.VRSchedule.Check | backend/schedules/reinforcement.py:64-72 | a non-target response changes nothing; a target response fires iff the raised count reaches the ratio, and then the count resets and the ratio is redrawn |
| Schedules.VRSchedule.Tick | backend/schedules/reinforcement.py:74-75 | no change |
| Schedules.FISchedule.constructor | backend/schedules/reinforcement.py:10-12 | a new FI object, reset by the base constructor, is in the initial state |
| Schedules.FISchedule.Reset | backend/schedules/reinforcement.py:81-83 | elapsed 0, disarmed |
| Schedules.FISchedule.Check | backend/schedules/reinforcement.py:85-90 | fires iff armed and target; on firing disarms and zeroes elapsed, otherwise changes nothing |
| Schedules.FISchedule.Tick | backend/schedules/reinforcement.py:92-95 | elapsed rises by 1; armed iff it was armed or elapsed reaches the value |
| Schedules.VISchedule.constructor | backend/schedules/reinforcement.py:10-12 | a new VI object, reset by the base constructor, is in the initial state for its draw |
| Schedules.VISchedule.Reset | backend/schedules/reinforcement.py:101-104 | elapsed 0, disarmed, interval redrawn |
| Schedules.VISchedule.SetNextInterval | backend/schedules/reinforcement.py:106-107 | the next interval is `Threshold(draw)`; the other fields are kept |
| Schedules.VISchedule.Check | backend/schedules/reinforcement.py:109-115 | fires iff armed and target; on firing disarms, zeroes elapsed and redraws, otherwise changes nothing |
| Schedules.VISchedule.Tick | backend/schedules/reinforcement.py:117-120 | elapsed rises by 1, the interval is kept; armed iff it was armed or elapsed reaches the interval |
| Schedules.Schedule.Reset | backend/schedules/reinforcement.py:14-17 | any schedule object resets to `Initial` of its kind and value |
| Schedules.Schedule.Tick | backend/schedules/reinforcement.py:28-31 | any schedule object moves to `Ticked` of its old state |
| Schedules.Schedule.Check | backend/schedules/reinforcement.py:19-26 | any schedule object returns `Fires` and moves to `AfterCheck` of its old state |
| Schedules.KindNamed | backend/schedules/reinforcement.py:125-131 | the upper-cased name picks FR, VR, FI or VI; every other name picks nothing (both directions of each case) |
| Schedules.CreateSchedule | backend/schedules/reinforcement.py:123-134 | fails with the `ValueError` message iff the name is unknown; otherwise a fresh object of the named kind in its initial state, with its invariant |
| StepResults.CellValue | backend/environments/grid_chamber.py:87 | a grid state is the tuple of its row and column |
| TwoChoice.ScheduleIdFor | backend/environments/two_choice.py:35-44 | `"schedule_a"` iff `choice_a`, `"schedule_b"` iff `choice_b`, `""` iff any other action |
| TwoChoice.Reinforces | backend/environments/two_choice.py:30-44 | a step can be reinforced only for one of the two options, and then exactly when that option's ticked schedule fires on a target response |
| TwoChoice.OtherActionsCheckNothing | backend/environments/two_choice.py:34-45 | any other action leaves both schedules as the tick left them and is not reinforced |
| TwoChoice.TwoChoiceEnvironment.constructor | backend/environments/two_choice.py:14-18 | the two schedules, the maximum, and a step count of 0 |
| TwoChoice.TwoChoiceEnvironment.Reset | backend/environments/two_choice.py:20-24 | both schedules reset with their own draws, the step count goes to 0, and the state is `"start"` |
| TwoChoice.TwoChoiceEnvironment.Respond | backend/environments/two_choice.py:34-44 | the answered schedule gets `check(True)` and the other `check(False)`; any other action checks neither; returns the answered schedule's result and id |
| TwoChoice.TwoChoiceEnvironment.Step | backend/environments/two_choice.py:26-56 | step count +1; both schedules ticked, then checked as above; reinforced per `Reinforces`; state `"start"`; `action_taken` is the action; magnitude 1.0 iff reinforced; done iff step count >= maximum |
| TwoChoice.TwoChoiceEnvironment.AvailableActions | backend/environments/two_choice.py:58-59 | `["choice_a", "choice_b"]` |
| GridChamber.Direction | backend/environments/grid_chamber.py:15-21 | a move exists iff the action is one of the five directions; each coordinate moves by at most one; the null move is exactly `stay` |
| GridChamber.Clamp | backend/environments/grid_chamber.py:77-78 | `max(0, min(n - 1, x))` lies in `[0, n)` and keeps an in-range coordinate |
| GridChamber.Moved | backend/environments/grid_chamber.py:75-79 | a move lands inside the grid; `stay` from inside the grid stays put |
| GridChamber.MoveIsLocal | backend/environments/grid_chamber.py:75-79 | a move from inside the grid changes each coordinate by at most one |
| GridChamber.VisitRecorded | backend/environments/grid_chamber.py:51-52 | recording a visit keeps the counts positive and adds one to their sum |
| GridChamber.GridChamberEnvironment.constructor | backend/environments/grid_chamber.py:23-40 | the settings, position at the start, step count 0, no visits |
| GridChamber.GridChamberEnvironment.RecordVisit | backend/environments/grid_chamber.py:51-52 | one more visit to the cell; the sum of the visits rises by one |
| GridChamber.GridChamberEnvironment.IsAdjacentToLever | backend/environments/grid_chamber.py:54-57 | Chebyshev distance at most one from the lever, its own cell included |
| GridChamber.GridChamberEnvironment.Reset | backend/environments/grid_chamber.py:42-49 | position at the start, step count 0, visits `{start: 1}` (so consistent), schedule reset if there is one |
| GridChamber.GridChamberEnvironment.Respond | backend/environments/grid_chamber.py:69-81 | a press next to the lever is the target response with id `"lever_schedule"`; a press elsewhere is recorded as `"stay"`, does not move and checks nothing; a direction moves (clamped) and is a non-target response; any other action does nothing |
| GridChamber.GridChamberEnvironment.Step | backend/environments/grid_chamber.py:59-97 | step count +1; schedule ticked and then checked as above; no schedule means never reinforced; visits incremented at the new position, so visit counts that summed to `step_count + 1` still do; position stays in bounds; the state is the new position; the magnitude is 0.0, the default of the source's field; done iff step count >= maximum |
| GridChamber.GridChamberEnvironment.AvailableActions | backend/environments/grid_chamber.py:99-100 | the six grid actions |
| Fitness.CircularDistance | backend/etbd_internals/fitness.py:6-9 | the smaller of the direct difference and the way round |
| Fitness.DistanceSymmetric | backend/etbd_internals/fitness.py:8-9 | the distance does not depend on the order of the phenotypes |
| Fitness.DistanceZeroIffEqual | backend/etbd_internals/fitness.py:6-9 | on the ring the distance is 0 iff the phenotypes are equal |
| Fitness.DistanceAtMostHalf | backend/etbd_internals/fitness.py:8-9 | on the ring the distance lies in `[0, max_val / 2]` |
| Fitness.DistanceExamples | backend/etbd_internals/fitness.py:8-9 | `(0, 512)` gives 512, `(0, 513)` gives 511, `(0, 1020)` and `(1020, 0)` give 4 |
| Fitness.Pow | backend/etbd_internals/fitness.py:18 | `b ** 0 == 1`; a non-zero base gives a non-zero power; a non-negative base a non-negative one |
| Fitness.Power | backend/etbd_internals/fitness.py:18 | Python's float power with an integer exponent, a negative exponent giving the reciprocal |
| Fitness.FitnessAtTarget | backend/etbd_internals/fitness.py:17-18 | fitness on the target is 1 for every decay |
| Fitness.PowInUnit | backend/etbd_internals/fitness.py:18 | a decay in `[0, 1]` raised to a natural power stays in `[0, 1]` |
| Fitness.PowAntitone | backend/etbd_internals/fitness.py:18 | a decay in `[0, 1]` raised higher is no larger |
| Fitness.FitnessBoundedAndDecreasing | backend/etbd_internals/fitness.py:12-18 | for a decay in `[0, 1]`, fitness lies in `[0, 1]` and does not increase with distance |
| Bits.Low | backend/etbd_internals/recombination.py:17 | `x & 1023` is `x % 1024` |
| Bits.RoundTrip | backend/etbd_internals/mutation.py:5 | every phenotype in `[0, 1024)` is the value of its ten bits |
| Bits.MaskBit | backend/etbd_internals/recombination.py:15 | `(1 << p) - 1` has exactly the bits below `p` |
| Bits.SelectBlocks | backend/etbd_internals/recombination.py:16 | `(a & m) \| (b & ~m)` shows `a` under the mask and `b` outside it |
| Recombination.CrossoverPoint | backend/etbd_internals/recombination.py:14 | the crossover point lies in `[1, 9]` |
| Recombination.Recombine | backend/etbd_internals/recombination.py:15-17 | the child lies in `[0, 1024)` |
| Recombination.RecombineDrawn | backend/etbd_internals/recombination.py:14-17 | `recombine` with its draw is the child at the drawn crossover point |
| Recombination.RecombineBelowPoint | backend/etbd_internals/recombination.py:10-16 | the child is the crossed ten-bit string, and below the crossover point it shows `parent_a`'s bits |
| Recombination.RecombineFromPoint | backend/etbd_internals/recombination.py:10-16 | the child is the crossed ten-bit string, and from the crossover point up to bit 9 it shows `parent_b`'s bits |
| Recombination.CrossBlocks | backend/etbd_internals/recombination.py:16 | `(a & mask) \| (b & ~mask)` agrees with `a` under the mask and with `b` outside it |
| Recombination.RecombineSame | backend/etbd_internals/recombination.py:15-17 | the same parent on the ring twice gives that parent at every point |
| Recombination.CrossSame | backend/etbd_internals/recombination.py:16 | crossing a string with itself gives the string back |
| Mutation.FlipIfDrawn | backend/etbd_internals/mutation.py:14-15 | one pass of the loop flips that one bit iff its draw is below the rate |
| Mutation.FlipLow | backend/etbd_internals/mutation.py:13-15 | the loop exclusive-ors the low bits with the mask of the bits drawn below the rate |
| Mutation.Mutate | backend/etbd_internals/mutation.py:8-16 | `mutate` equals `Mutated` of the phenotype, the rate and the ten draws |
| Mutation.FlipOneBit | backend/etbd_internals/mutation.py:14-15 | one pass of the loop flips bit `j` and no other, and only if its draw is below the rate |
| Mutation.FlipMaskBit | backend/etbd_internals/mutation.py:13-15 | bit `i` of the flip mask is set iff `i` is among the bits done and its draw is below the rate |
| Mutation.MutatedParts | backend/etbd_internals/mutation.py:13-16 | mutation keeps every bit from position 10 up and exclusive-ors the low ten with the flip mask |
| Mutation.MutatedBits | backend/etbd_internals/mutation.py:13-15 | exactly the bits whose draw is below the rate are flipped |
| Mutation.MutatedInRange | backend/etbd_internals/mutation.py:13-16 | a phenotype on the ring stays on the ring |
| Mutation.FlipMaskNone | backend/etbd_internals/mutation.py:13-15 | no draw below the rate gives an empty flip mask |
| Mutation.FlipMaskAll | backend/etbd_internals/mutation.py:13-15 | every draw below the rate flips every bit done |
| Mutation.MutatedRateZero | backend/etbd_internals/mutation.py:13-15 | rate 0 with unit draws changes nothing |
| Mutation.ComplementOnRing | backend/etbd_internals/mutation.py:13-15 | flipping all ten bits of a phenotype on the ring gives `1023` minus it |
| Mutation.MutatedRateOne | backend/etbd_internals/mutation.py:13-15 | rate 1 with unit draws flips all ten low bits: `p XOR 1023`, which is `1023 - p` on the ring |
| Selection.FitnessNonNegative | backend/etbd_internals/selection.py:24-26 | a non-negative decay gives non-negative fitness |
| Selection.Fitnesses | backend/etbd_internals/selection.py:24-26 | one fitness per member, in order, each non-negative |
| Selection.SumNonNegative | backend/etbd_internals/selection.py:27 | the total of non-negative fitnesses is non-negative |
| Selection.SelectIndex | backend/etbd_internals/selection.py:27-31 | the picked index lies in the population |
| Selection.SelectParent | backend/etbd_internals/selection.py:7-32 | the parent is a member of the population |
| Selection.SelectIndexProportional | backend/etbd_internals/selection.py:30-31 | with a positive total the index is the weighted draw over `fitness / total`, a distribution, and never a member of fitness zero |
| Selection.SelectIndexUniform | backend/etbd_internals/selection.py:28-29 | with total fitness 0 the index is the uniform one |
| Selection.SelectParentSingle | backend/etbd_internals/selection.py:24-32 | a population of one gives that one |
| Selection.PositiveDecayWeighted | backend/etbd_internals/selection.py:24-31 | a positive decay gives a positive total, so the uniform fallback never happens |
| Selection.SelectParentZeroDecay | backend/etbd_internals/selection.py:24-32 | with decay 0 and the target in the population, selection returns the target |
| Organisms.Brood | backend/etbd_internals/organism.py:46-56 | one child per draw, appended in order |
| Organisms.Generation | backend/etbd_internals/organism.py:46-57 | `reinforce` builds `population_size` children, each bred from two parents selected in the population before the generation |
| Organisms.Drifted | backend/etbd_internals/organism.py:64-71 | `drift` builds `population_size` children, each bred from two uniformly picked parents of the population before the generation |
| Organisms.InitialPopulation | backend/etbd_internals/organism.py:29-34 | `population_size` phenotypes, each in `[0, max_phenotype)` |
| Organisms.OffspringOnRing | backend/etbd_internals/organism.py:54-55 | a child passes through recombination, so it lies in `[0, 1024)` |
| Organisms.GenerationOnRing | backend/etbd_internals/organism.py:46-57 | after `reinforce` every phenotype lies in `[0, 1024)` |
| Organisms.DriftedOnRing | backend/etbd_internals/organism.py:64-71 | after `drift` every phenotype lies in `[0, 1024)` |
| Organisms.OffspringOfEqualParents | backend/etbd_internals/organism.py:54-55 | without mutation, two copies of a parent breed that parent |
| Organisms.GenerationFixesTarget | backend/etbd_internals/organism.py:46-57 | decay 0, no mutation and a member on the target: the whole next generation is the target |
| Organisms.DriftKeepsUniform | backend/etbd_internals/organism.py:64-71 | without mutation, drift keeps a population of copies of one phenotype |
| Organisms.RingSelectable | backend/etbd_internals/organism.py:48-53 | on the ring, any non-negative decay gives well-defined fitnesses |
| Organisms.Breed | backend/etbd_internals/organism.py:54-55 | `mutate(recombine(a, b))` with the child's draws |
| Organisms.SelectOne | backend/etbd_internals/organism.py:48-56 | one pass of the `reinforce` loop breeds the selected child |
| Organisms.DriftOne | backend/etbd_internals/organism.py:66-70 | one pass of the `drift` loop breeds the drift child |
| Organisms.Organism.constructor | backend/etbd_internals/organism.py:15-27 | the settings, and a first population from the reset draws |
| Organisms.Organism.Reset | backend/etbd_internals/organism.py:29-34 | the population becomes `InitialPopulation` of the draws |
| Organisms.Organism.Emit | backend/etbd_internals/organism.py:36-38 | the member at the uniform index, so a member of the population and on the ring |
| Organisms.Organism.Reinforce | backend/etbd_internals/organism.py:40-57 | the population becomes `Generation` of the old one: same size, on the ring |
| Organisms.Organism.Drift | backend/etbd_internals/organism.py:59-71 | the population becomes `Drifted` of the old one: same size, on the ring |
| ETBD.Names | backend/agents/etbd.py:31 | the keys of the map, in order |
| ETBD.FirstMatch | backend/agents/etbd.py:27-29 | the first range holding the phenotype, or none |
| ETBD.ActionFor | backend/agents/etbd.py:25-31 | the answer is always a key of the map |
| ETBD.PhenotypeToAction | backend/agents/etbd.py:25-31 | the scan with early return yields `ActionFor`: the first range holding the phenotype, else the first key |
| ETBD.IndexOf | backend/agents/etbd.py:36 | the entry named by the action; it exists iff the action is a key |
| ETBD.TargetInRange | backend/agents/etbd.py:34-37 | the midpoint `(low + high) // 2` lies in the action's own range and so in `[0, 1024)` |
| ETBD.PartitionBounds | backend/agents/etbd.py:10-22 | every range of a partition of `[0, n)` lies in `[0, n)` |
| ETBD.PartitionOrdered | backend/agents/etbd.py:10-22 | the ranges of a partition come in increasing, non-overlapping order |
| ETBD.PartitionUnique | backend/agents/etbd.py:27-29 | on a partition each phenotype of `[0, n)` is in exactly one range |
| ETBD.ActionForRange | backend/agents/etbd.py:25-29 | a phenotype in an action's range is read as that action |
| ETBD.ActionForOutside | backend/agents/etbd.py:30-31 | a phenotype outside `[0, n)` falls back to the first key |
| ETBD.RoundTrip | backend/agents/etbd.py:25-37 | `phenotype_to_action(action_to_target(a)) == a` for every key of a partition |
| ETBD.MapsPartition | backend/agents/etbd.py:10-22 | both maps split `[0, 1024)` into contiguous, disjoint half-open ranges with distinct keys |
| ETBD.TwoChoicePartition | backend/agents/etbd.py:10-13 | the two-choice map splits `[0, 1024)` into `[0, 512)` and `[512, 1024)` with distinct keys |
| ETBD.GridPartition | backend/agents/etbd.py:15-22 | the grid map splits `[0, 1024)` into six contiguous ranges with distinct keys |
| ETBD.MapsMatchEnvironments | backend/agents/etbd.py:10-22 | the keys of the two maps are the actions of the two environments, in order |
| ETBD.MapExamples | backend/agents/etbd.py:10-37 | 511 is `choice_a`, 512 `choice_b`, 170 `up`, 171 `down`; targets 256, 768, 85 and 939 |
| ETBD.MapFor | backend/agents/etbd.py:59-62 | `"grid_chamber"` selects the grid map, any other type the two-choice map; both are partitions |
| ETBD.ETBDAgent.constructor | backend/agents/etbd.py:47-68 | the settings, the map for the environment type, and an organism with those settings |
| ETBD.ETBDAgent.SelectAction | backend/agents/etbd.py:70-73 | the action of the emitted phenotype, always a key of the agent's map, whatever actions are offered |
| ETBD.Learned | backend/agents/etbd.py:75-80 | one child per draw, each on the ring: a generation selected for the action's midpoint when credited, a generation of drift otherwise |
| ETBD.ETBDAgent.Update | backend/agents/etbd.py:75-80 | the population becomes `Learned` of the old one, credited iff reinforced with a positive magnitude, so it is selected for the action's midpoint then and drifts otherwise |
| ETBD.ETBDAgent.Reset | backend/agents/etbd.py:82-83 | the organism draws a fresh population |
| ETBD.ETBDAgent.GetParams | backend/agents/etbd.py:85-91 | the four settings |
| QLearning.SliceStart | backend/agents/q_learning.py:35 | Python's slice-start normalisation: a negative start counts from the end, both clamp to `[0, n]` |
| QLearning.HistoryKey | backend/agents/q_learning.py:34-35 | a history key is a tuple |
| QLearning.HistoryKeyIsWindow | backend/agents/q_learning.py:34-35 | for a window of at least one, the key is the last `min(window, len(history))` actions, oldest first |
| QLearning.HistoryKeyZeroWindow | backend/agents/q_learning.py:35 | a window of 0 keys on the whole history, as `history[-0:]` does |
| QLearning.StateKey | backend/agents/q_learning.py:33-38 | history mode keys on the history; otherwise a list becomes a tuple and anything else is itself |
| QLearning.HistoryKeyIgnoresState | backend/agents/q_learning.py:34-35 | in history mode the key does not depend on the state |
| QLearning.StateKeyIsKey | backend/agents/q_learning.py:36-38 | without history a key is never a list and is its own key |
| QLearning.Touch | backend/agents/q_learning.py:30 | a `defaultdict` read creates a missing row empty and keeps every other row |
| QLearning.TouchKeepsLookups | backend/agents/q_learning.py:30 | creating an empty row changes no value a read sees |
| QLearning.RowHasMax | backend/agents/q_learning.py:61 | a non-empty row has an entry no other entry exceeds |
| QLearning.MaxNext | backend/agents/q_learning.py:60-61 | the largest stored value of the next row, 0.0 for an empty row |
| QLearning.TDConvex | backend/agents/q_learning.py:64-66 | the TD rule is the mean of the old value and `reward + gamma * maxNext` weighted by alpha; alpha 0 keeps the value, alpha 1 takes the target |
| QLearning.TDTowardTarget | backend/agents/q_learning.py:64-66 | alpha in `[0, 1]` moves the value toward the target without overshooting |
| QLearning.TDExample | backend/agents/q_learning.py:59-66 | alpha 0.5, gamma 0, value 2 and a reinforced step give 1.5 |
| QLearning.UpdatedEntries | backend/agents/q_learning.py:55-66 | `update` sets entry `(key, action)` by the TD rule over the next row's max and leaves every other entry's value as it was; every other existing row is unchanged, a missing next row is added empty, and the updated row gains only `action` |
| QLearning.UpdatedReads | backend/agents/q_learning.py:55-66 | after `update` the table has the old keys plus the two keys, the TD value at `(key, action)` and every other read unchanged |
| QLearning.UpdatedRows | backend/agents/q_learning.py:55-66 | after `update` every other existing row is unchanged, a missing next row is empty, and the updated row gains only `action` |
| QLearning.UpdatedBounded | backend/agents/q_learning.py:59-66 | with alpha in `[0, 1]` and rewards in `[0, 1]`, values in `[0, hi]` stay there whenever `1 + gamma * hi <= hi` |
| QLearning.TDBounded | backend/agents/q_learning.py:63-66 | one TD step keeps a value in `[0, hi]` when the old value and the next maximum are in it |
| QLearning.LookupBounded | backend/agents/q_learning.py:63 | a read of a bounded table, default 0.0 included, is in `[0, hi]` |
| QLearning.NextMaxBounded | backend/agents/q_learning.py:60-61 | the next row's maximum of a bounded table is in `[0, hi]` |
| QLearning.NewValueBounded | backend/agents/q_learning.py:63-66 | the value `update` stores lies in `[0, hi]` under the same conditions |
| QLearning.MaxQ | backend/agents/q_learning.py:50 | the largest value, default 0.0, among the offered actions, attained by one of them |
| QLearning.BestActions | backend/agents/q_learning.py:51 | an action is kept iff it is offered and has the maximum value |
| QLearning.Greedy | backend/agents/q_learning.py:50-52 | the picked action is offered and has the maximum value among the offered actions |
| QLearning.QLearningAgent.constructor | backend/agents/q_learning.py:17-31 | the settings, an empty table and an empty history |
| QLearning.QLearningAgent.SelectAction | backend/agents/q_learning.py:40-52 | exploring: a uniform action with the table untouched; otherwise the state's row is created if missing, an empty row gives a uniform action and a non-empty one a greedy action; the action is always offered; the history is kept |
| QLearning.QLearningAgent.Update | backend/agents/q_learning.py:54-66 | the action joins the history first; the table becomes `Updated` with reward 1.0 iff reinforced; in history mode both keys are equal |
| QLearning.QLearningAgent.Reset | backend/agents/q_learning.py:68-70 | an empty table and an empty history |
| QLearning.QLearningAgent.GetParams | backend/agents/q_learning.py:72-79 | the settings, and the table size counts every row, the empty rows reads created included |
| MPR.Rate | backend/agents/mpr.py:56 | reinforcements per response lies in `[0, 1]` when there are no more reinforcements than responses |
| MPR.Coupling | backend/agents/mpr.py:44-68 | never below the floor; exactly the floor before any step or before the action's first response |
| MPR.CouplingFormula | backend/agents/mpr.py:56-68 | once there are responses, FR/VR give `max(a * exp(-b / max(R, 1e-10)), floor)` and the others `max(a * R / (R + b), floor)` |
| MPR.HyperbolicMonotone | backend/agents/mpr.py:66 | the hyperbolic coupling grows with the rate and stays below `a` |
| MPR.ExponentialPositive | backend/agents/mpr.py:63 | the exponential coupling is positive |
| MPR.CouplingExamples | backend/agents/mpr.py:44-68 | FR/VR and FI/VI couplings at sample counts |
| MPR.MatchingChoice | backend/agents/mpr.py:73-78 | the division fails iff both couplings are 0 |
| MPR.MatchingLaw | backend/agents/mpr.py:73-78 | the first option is chosen iff the draw is below `C_a / (C_a + C_b)`, a probability in `[0, 1]`; the second option otherwise |
| MPR.MatchingEven | backend/agents/mpr.py:73-78 | equal couplings give even odds |
| MPR.MaxSeq | backend/agents/mpr.py:83 | the maximum of the values, attained by one of them |
| MPR.Softmax | backend/agents/mpr.py:81-85 | one probability per action, each non-negative, summing to 1 |
| MPR.UpdateConsistent | backend/agents/mpr.py:89-93 | one more step keeps the counters consistent: positive counts, no more reinforcements than responses, counts summing to `total_steps` |
| MPR.ConsistentRates | backend/agents/mpr.py:49-56 | consistent counters give `reinf[a] <= count[a] <= total_steps` and every rate in `[0, 1]` |
| MPR.MPRAgent.constructor | backend/agents/mpr.py:21-42 | the settings, the schedule type upper-cased, empty counters |
| MPR.MPRAgent.GetCoupling | backend/agents/mpr.py:44-68 | never below the floor; the floor before any step or response of the action |
| MPR.MPRAgent.SelectAction | backend/agents/mpr.py:70-87 | the two-choice chamber with two actions uses the matching law (failing only when the total coupling is 0); otherwise a softmax draw over the couplings; the answer is always offered; a positive floor never fails |
| MPR.MPRAgent.Couplings | backend/agents/mpr.py:71 | each offered action's coupling, in order, each at least the floor |
| MPR.MPRAgent.Update | backend/agents/mpr.py:89-93 | `total_steps` +1 and the action's count +1; its reinforcement count +1 iff reinforced with positive magnitude; the counters stay consistent |
| MPR.MPRAgent.Reset | backend/agents/mpr.py:95-98 | empty counters and no steps |
| MPR.MPRAgent.GetParams | backend/agents/mpr.py:100-108 | the six reported settings |
| Runner.Agent.Reset | backend/simulation/runner.py:32 | the Q-learning agent empties its table and history, the ETBD organism draws its initial population, the MPR agent empties its counters; the agent stays valid |
| Runner.Agent.SelectAction | backend/simulation/runner.py:44 | the ETBD agent answers with a key of its map, the others with an offered action; only the MPR agent can fail |
| Runner.Agent.Update | backend/simulation/runner.py:60 | with the default magnitude 1.0: the Q-learning agent appends the action and applies the TD update with reward 1.0 iff reinforced; the ETBD organism becomes `Learned` of its population; the MPR agent counts the step, the response and, iff reinforced, the reinforcement; the agent stays valid |
| Runner.Environment.Reset | backend/simulation/runner.py:33 | the environment restarts with step count 0 and consistent visit counts |
| Runner.Environment.Step | backend/simulation/runner.py:45 | step count +1, done iff it reaches the maximum; a reinforced step was taken as asked; the two-choice chamber reinforces per `Reinforces`; the grid counts a visit to the new position, which is the new state |
| Runner.Environment.AvailableActions | backend/simulation/runner.py:34 | at least one action is offered |
| Runner.Reinforcements | backend/simulation/runner.py:48-49 | the number of reinforced records, never more than the records |
| Runner.Occurrences | backend/simulation/runner.py:50 | the number of records of an action, never more than the records |
| Runner.TallyCounts | backend/simulation/runner.py:50 | `action_counts` counts each action taken exactly as often as it occurs, and holds no other action |
| Runner.TallySum | backend/simulation/runner.py:50 | the action counts sum to the number of steps |
| Runner.RateOf | backend/simulation/runner.py:67 | `total_reinforcements / step_num if step_num > 0 else 0`, in `[0, 1]` for at most as many reinforcements as steps |
| Runner.Appended | backend/simulation/runner.py:47-58 | a new record extends the numbering, the reinforcement count and the tally by itself alone |
| Runner.RunLength | backend/simulation/runner.py:40-62 | at least one step, and at least the maximum |
| Runner.Play | backend/simulation/runner.py:44-60 | select, step, learn: step count +1, done iff it reaches the maximum, both sides stay valid; only the MPR agent can fail |
| Runner.Run | backend/simulation/runner.py:27-83 | exactly `max(1, max_steps)` records numbered 1..n; `total_steps == n`; `total_reinforcements` is the number of reinforced records; `action_counts` is the tally of the actions taken; the rate; the agent and environment names; `agent_params` is `get_params()` of the agent after the run; visit counts only for the grid, summing to `n + 1`; the only failure is the MPR division by zero |

## Left out

- Transport, request schemas, the user interface and the multi-condition and multi-lever runs are not part of this model. The schema bounds the model needs are `requires` clauses: population at least one, MPR `a`, `b` and temperature positive, floor non-negative, and `fitness_decay` non-negative (`ETBD.ETBDAgent`'s constructor and `Selection.Selectable`). With a negative decay, `select_parent` could build negative weights and numpy's `choice` would raise `ValueError`; that error path is not modelled.
- numpy's distributions and its stream order: each draw is a parameter, so the statistical behaviour (frequencies, mean drift, convergence) is not modelled, and "the same seed gives the same run" holds because every result is a function of its draws.
- Floating point: Q-values, fitness, couplings and probabilities are reals. IEEE rounding, underflow to 0 and `nan` are not modelled. Where numpy's `exp` would underflow and a softmax total would be 0, the model still has a distribution.
- `exp` is an uninterpreted positive function, so the softmax branch of `MPRAgent.select_action` is proved only to give a distribution and an offered action.
- `str()` conversions are left out. The runner records each step's state as a value, not as its string. The summary's visit counts keep tuple keys instead of `str(k)` keys.
- `Support.Upper` upper-cases ASCII letters only; Python's `str.upper` also maps other scripts.
- `Organisms.Organism` requires `max_phenotype <= 1024` and a population of at least one. The source builds it with the default 1024, and the request schema asks for at least 10.
- `Mutation.Mutate`: the loop works on the ten low bits and reassembles the integer afterwards. It is proved equal to the per-bit exclusive-or on all bits. That mutating twice with the same draws gives the phenotype back is not proved.
- `ETBD.ETBDAgent.Update` requires a key of the map when reinforced with positive magnitude; Python would raise `KeyError` for anything else. `Runner.Run` shows that a reinforced step always carries the agent's own key.
- `MPR.MPRAgent`: `learning_rate` is stored but never used, as in the source.
- `Runner.Run` ties the records down only by their numbering, their count, the reinforcement total and the action tally. That each record's state, action, reinforced flag and schedule id come from that step's result is in the method body, not in the postcondition. The order of the calls is not stated either: that the agent is reset before the environment, and that each step's agent update sees the action taken and the new state, is in the method body and in `Runner.Play`.
- `Runner.Agent.SelectAction`: states only where the answer comes from (an offered action, or a key of the ETBD map). Which action each agent picks is stated by that agent's own `SelectAction`.
- `Runner.Environment.Reset`: states only the restart, the step count of 0 and consistent visits. What each environment resets is stated by that environment's own `Reset`.
- `Runner.Play`: states the step count, the done flag and validity, not which action was chosen or learned. Those follow from the agent and environment contracts it calls.
- `Runner.Run`: the seed argument and `np.random.seed` are replaced by the draw sequences passed in.
- The abstract base classes carry no behaviour. `StepResult` is a datatype without field defaults: the source's magnitude field defaults to 0.0, and the model instead proves that the grid's `Step` leaves it at 0.0.
