# Reputation game with evolving deception — a Dafny model

The repository simulates a population of agents that play a reputation game over many
generations:
- At every simulation step a randomly drawn agent decides whether to cooperate with a
  second one. Cooperation costs the first agent, pays the second and raises the first
  agent's reputation; defection lowers it.
- In the base game a pair of agents may then exchange reputation. The first agent may
  badmouth the second, and may be caught doing so.
- At the end of a generation the population is ranked by accumulated payoff ("value"):
  - the fittest survive;
  - parents are chosen among the fittest, and each has children in proportion to a share
    that mixes its normalised fitness with a uniform share;
  - children inherit the evolvable trait and are mutated.

The model covers five things:
- **the list engine** of `simulation.py`. Its population is a list of dictionaries, it logs
  every step, and it builds the next generation by loops;
- **the numpy engine** of `simulation_numpy.py`. Its population is a fixed-size structured
  array updated in place, and its log is a preallocated array with one row per generation.
  It is modelled as written: both agents a step plays with are the one at the first drawn
  index (see "## Findings");
- **the two experiments that subclass the numpy engine**:
  - `experiment_1.py`: an integer strategy compared with the partner's reputation, no
    deception round, and mutation by fresh random strategies;
  - `experiment_3.py`: strategy plus a noise level, and mutation of both;
- **the configuration** (`configuration.py`) and each experiment's overrides of it;
- **`key_to_labeltext`** of `helper_widgets.py`, the label of a settings key.

Modules:

| file | module | what it holds |
|---|---|---|
| agents.dfy | Agents | the agent record (value, reputation, traits per variant), reputation clamps, `ceil`, `clip` |
| configuration.dfy | Configuration | the settings record, its defaults and the experiments' overrides |
| interaction.dfy | Interaction | the base game's policies and the cooperation and deception updates on a population |
| selection.dfy | Selection | ranking, fitness normalisation, shares, children counts, `np.repeat`, truncation |
| numpy_indexing.dfy | NumpyIndexing | `column[idx] = vals` and the buffered `column[idx] += deltas` |
| experiment1.dfy | Experiment1 | experiment_1's policy, cooperation update and strategy mutation |
| experiment3.dfy | Experiment3 | experiment_3's noisy policy, agent and noise mutation |
| simulation.dfy | Simulation | the list engine: interaction rounds, selection, log, and the class `Simulation` |
| simulation_numpy.dfy | SimulationNumpy | the numpy engine and both experiments (`Variant`), and the class `Simulation` over arrays |
| helper_widgets.dfy | HelperWidgets | `key_to_labeltext` |

Each engine is a class with the source's fields:
- counters;
- the last relation;
- the last pair drawn;
- the population:
  - the list engine: a `seq`, reassigned because the source rebinds the list;
  - the numpy engine: an `array`;
- the log:
  - the list engine: one growing list per property;
  - the numpy engine: an `array` of rows.

Each engine method is proved against a specification function:
- `Play` for a run of interaction steps;
- `Selected` for the population selection leaves behind;
- `Logged` for the list engine's log.

The properties of the source are lemmas about those functions.

Random draws are parameters of the method or function that consumes them, with the
ranges the source's generators produce:
- `StepDraws` for one step;
- the mutation draws for one generation boundary.

The order numpy's `argsort()[::-1]` gives to agents of equal fitness is not specified by
numpy. The numpy engine therefore takes any ranking of the population (`RankingOf`: a
permutation in non-increasing order of value). The list engine uses Python's stable sort,
modelled by `Selection.SortDesc`.

## Model

| member | source | states |
|---|---|---|
| Agents.Raise | simulation.py:147 | `min(r + 1, 5)`: never above 5, one more below 5, stays in [-5, 5] and does not fall |
| Agents.Lower | simulation.py:152 | `max(r - 1, -5)`: never below -5, one less above -5, stays in [-5, 5] and does not rise |
| Agents.ResetAll | simulation_numpy.py:129-132 | reset_agents keeps the population's size |
| Agents.Ceil | simulation.py:120 | `ceil(x)` is the least integer not below `x` |
| Agents.Clip | simulation_numpy.py:126-127 | `np.clip`: the result lies in [lo, hi], equals x inside, the nearer bound outside |
| Configuration.Settings.Children | simulation_numpy.py:114 | survivors plus children make up the population |
| Configuration.Experiment1Settings | experiment_1.py:19-25 | experiment_1's overrides keep the deception probabilities and keep valid settings valid |
| Configuration.Experiment3Settings | experiment_3.py:15-20 | experiment_3's overrides (on top of experiment_1's) have no survivors and keep valid settings valid |
| Configuration.DefaultsValid | configuration.py:13-22 | the defaults are consistent: probabilities in [0, 1], 1 <= parents <= agents, at least two agents, all 20 agents are children |
| Configuration.ExperimentSettingsValid | experiment_3.py:15-20 | both experiments' settings are valid; experiment_1 has influence 1.0, experiment_3 has 100 children |
| Interaction.ReputationPolicyExtremes | simulation.py:24-26 | with probability 0 nobody badmouths, with probability 1 everybody does, for every uniform draw in [0, 1) |
| Interaction.Cooperation | simulation.py:143-154 | the cooperation update keeps size and traits and touches only the two named agents |
| Interaction.CooperationOfTwo | simulation.py:143-154 | for two agents: on a partner's reputation >= 0 the first pays 0.5 and gains a reputation point, the second gains 1.0; otherwise the first loses a point and nothing else changes |
| Interaction.CooperationOfOne | simulation_numpy.py:137-150 | when both names denote one agent it gains 0.5 net and a point, or loses a point |
| Interaction.CooperationKeepsRange | simulation.py:147-152 | cooperation keeps every reputation in [-5, 5] |
| Interaction.TotalValueUpdate | simulation.py:145-146 | replacing one agent changes the total payoff by the difference of its values |
| Interaction.CooperativeUpdatesTotal | simulation.py:145-147 | the three writes of a cooperation add 0.5 to the total payoff, even if the names coincide |
| Interaction.CooperationTotalValue | simulation.py:143-154 | a cooperation adds 0.5 to the total payoff and a defection nothing |
| Interaction.Badmouth | simulation.py:164-169 | badmouthing keeps values, traits and size, touches only the two named agents and is the identity without deception |
| Interaction.BadmouthLowers | simulation.py:166-169 | reputations only fall, by one or two clamped steps, and stay in [-5, 5] |
| Interaction.BadmouthOfTwo | simulation.py:166-169 | the victim loses a point; the deceiver loses one exactly on repercussion |
| Interaction.BadmouthOfOne | simulation_numpy.py:160-163 | an agent badmouthing itself loses one point, and another on repercussion |
| Interaction.BadmouthKeepsRange | simulation.py:166-169 | badmouthing keeps every reputation in [-5, 5] |
| NumpyIndexing.FancyAssign | experiment_1.py:68-69 | fancy assignment keeps the column's length |
| NumpyIndexing.FancyAssignSnoc | experiment_1.py:68-69 | in the index order the model chooses for repeated indices, one more index is one more point update |
| NumpyIndexing.FancyAssignUntouched | experiment_1.py:68-69 | a position no index names keeps its entry |
| NumpyIndexing.FancyAssignLast | experiment_1.py:68-69 | a named position holds the value of the last write to it, in the index order the model chooses |
| NumpyIndexing.FancyAssignFrom | experiment_1.py:68-69 | every entry is the old one or one of the values written to it |
| NumpyIndexing.Gathered | experiment_3.py:49-50 | `column[idx] + deltas` reads the old column at every index |
| NumpyIndexing.FancyAddAt | experiment_3.py:49-50 | after the buffered add an entry moved by at most one increment meant for it |
| NumpyIndexing.FancyAddRepeated | experiment_3.py:49-50 | two increments at one index leave only one of them: the later one, in the index order the model chooses |
| Experiment1.CooperationPolicyExtremes | experiment_1.py:28-30 | strategy -5 always cooperates with an in-range partner; strategy 5 iff the partner's reputation is 5 |
| Experiment1.Cooperation | experiment_1.py:78-96 | the update keeps size and traits and touches only the two named agents |
| Experiment1.CooperationOfTwo | experiment_1.py:84-96 | for two agents: cooperation pays the partner 1.0 at no cost and raises the first agent's reputation; defection pays the first agent 0.1 and lowers its reputation |
| Experiment1.CooperationOfOne | experiment_1.py:84-96 | when both names denote one agent it compares its strategy with its own reputation and receives the payoff |
| Experiment1.CooperationKeepsRange | experiment_1.py:88-94 | every reputation stays in [-5, 5] |
| Experiment1.CooperationTotalValue | experiment_1.py:84-96 | the total payoff grows by 1.0 on cooperation and by 0.1 on defection |
| Experiment1.Strategies | experiment_1.py:62 | the strategy column has one entry per agent, each that agent's strategy |
| Experiment1.WithStrategies | experiment_1.py:62-69 | writing the column back replaces exactly the strategies |
| Experiment1.MutatedStrategies | experiment_1.py:59-69 | mutation keeps the number of children |
| Experiment1.MutatedStrategiesAt | experiment_1.py:59-69 | only strategies change; an unnamed child is unchanged; fresh strategies in [-4, 5] keep all strategies in [-5, 5] |
| Experiment1.MutatedStrategyLast | experiment_1.py:68-69 | a child drawn last at its position gets exactly the fresh strategy, in the index order the model chooses |
| Experiment3.NoisyPolicyReduces | experiment_3.py:26-28 | without noise, or at draw 0.5, the noisy rule is experiment_1's rule; the perturbation lies within half the noise |
| Experiment3.NewAgent | experiment_3.py:32-36 | a new agent has no value, reputation 0, its strategy and noise |
| Experiment3.Noises | experiment_3.py:47 | the noise column has one entry per agent, each that agent's noise |
| Experiment3.WithClippedNoises | experiment_3.py:51 | writing back clips every noise to [0, 5] and changes nothing else |
| Experiment3.MutatedNoises | experiment_3.py:47-51 | noise mutation keeps the number of children |
| Experiment3.MutatedNoisesAt | experiment_3.py:47-51 | every noise ends in [0, 5], before clipping it moved by a draw in [-0.5, 0.5), and value, reputation and strategy are kept |
| Experiment3.MutatedNoisesUntouched | experiment_3.py:47-51 | an unnamed child whose noise is already in [0, 5] is unchanged |
| Selection.DescendingPairs | simulation.py:88 | a population in non-increasing order of value is ordered between every two positions |
| Selection.DescendingBounds | simulation.py:95-96 | the first agent of a ranking is the fittest and the last the least fit |
| Selection.DescendingPrepend | simulation.py:88 | an agent at least as fit as the head can be put in front of a ranking |
| Selection.Insert | simulation.py:88 | insertion adds exactly one agent to the multiset and keeps the order |
| Selection.SortDesc | simulation.py:88 | the sorted population has the same size and is in non-increasing order of value |
| Selection.SortDescStable | simulation.py:88 | the sort is stable: the agents of each fitness keep the order they had |
| Selection.InsertStable | simulation.py:88 | inserting an agent puts it after every agent of its fitness |
| Selection.SortDescIsRanking | simulation.py:88 | the sort is a permutation of the population (multiset equality) in non-increasing order |
| Selection.RankingExtremes | simulation_numpy.py:98 | in any ranking the first and last agents bound every fitness, and they are equal iff all fitnesses are equal |
| Selection.NormFactor | simulation.py:97-100 | the normalisation factor is 1 / (max - min) when max > min, else 0 |
| Selection.Shares | simulation_numpy.py:105-107 | one share per parent |
| Selection.ShareBounds | simulation.py:106-108 | a normalised fitness lies in [0, 1] and its share in [1 - influence, 1] |
| Selection.SumOfNonnegative | simulation.py:109 | a sum of non-negative shares bounds each of them, and is 0 iff all are 0 |
| Selection.SumOfEqual | simulation.py:109 | equal shares sum to their count times the share |
| Selection.Parents | simulation_numpy.py:94 | the parents are the first `number_of_parents` agents of the ranking, or all of them |
| Selection.RankedShares | simulation_numpy.py:98-107 | one share per parent |
| Selection.RankedShareAt | simulation_numpy.py:98-107 | parent i's share mixes the uniform share with its fitness normalised between the last and first agents |
| Selection.RankedSharesSum | simulation.py:103-110 | every share lies in [1 - influence, 1], the sum is non-negative, and it is positive iff `SharesDefined` |
| Selection.RankedShareBounds | simulation.py:106-108 | every share lies in [1 - influence, 1] |
| Selection.FittestShareIsOne | simulation.py:106-108 | when fitnesses differ, the fittest parent's share is 1 |
| Selection.InfluenceZeroShares | simulation.py:106-108 | influence 0 gives every parent share 1, summing to the number of parents |
| Selection.InfluenceOneShares | simulation.py:106-108 | influence 1 makes every share the normalised fitness, and the fittest parent's share 1 |
| Selection.EqualFitnessEqualShares | simulation.py:97-108 | when all fitnesses are equal every share is 1 - influence |
| Selection.ChildCounts | simulation_numpy.py:116 | `np.ceil(m * shares)`, one count per share |
| Selection.CountOf | simulation_numpy.py:116 | a parent's count is at least its scaled share |
| Selection.ScaledShare | simulation.py:120 | `children * share / sum` equals `m * share` with `m = children / sum` |
| Selection.ChildCountsCover | simulation_numpy.py:115-116 | the counts total at least `m` times the sum of the shares |
| Selection.Repeat | simulation_numpy.py:117-118 | `np.repeat` has the total of the counts as its length |
| Selection.RepeatFromParents | simulation_numpy.py:117-118 | every repeated agent is one of the parents |
| Selection.RepeatSnoc | simulation_numpy.py:117-118 | repeating one more parent appends its block of copies |
| Selection.RepeatBlock | simulation_numpy.py:117-118 | a position inside parent i's block holds parent i |
| Selection.Take | simulation_numpy.py:118 | `[:c]` is the prefix of length min(len, c) |
| Selection.Offspring | simulation_numpy.py:113-118 | exactly `children` children are born |
| Selection.OffspringFromParents | simulation_numpy.py:113-118 | every child is a copy of a parent |
| Selection.OffspringCoverage | simulation_numpy.py:115-118 | with a positive sum the counts cover all children, so the truncation never runs short |
| Selection.OffspringByFactor | simulation_numpy.py:115-118 | the offspring are the counts' repeat truncated to `children`, for the factor `m` with `m * sum = children` |
| Selection.CountsCoverChildren | simulation.py:118-126 | the per-parent counts total at least the number of children |
| Simulation.TwoAgentIndices | simulation.py:174-179 | two different indices below n, the first as drawn |
| Simulation.TwoAgentIndicesBijective | simulation.py:174-179 | every ordered pair of different indices comes from exactly one second draw |
| Simulation.CooperationRound | simulation.py:139-154 | the round keeps the population's size and ranges and records the drawn pair of different agents; the relation is cooperate exactly when the second agent's reputation is not negative, defect otherwise |
| Simulation.DeceptionRound | simulation.py:157-171 | skipped below the exchange probability; otherwise the drawn pair is recorded, values are kept, reputations only fall, and the relation becomes deception exactly when the first agent badmouths, caught or not |
| Simulation.InteractionRound | simulation.py:55-56 | a step keeps the size and every agent's ranges |
| Simulation.Play | simulation.py:54-59 | a run of steps keeps the size and every agent's ranges |
| Simulation.PlaySnoc | simulation.py:54-59 | one more draw plays one more interaction step |
| Simulation.FirstStepPays | simulation.py:139-154 | from fresh agents the first step costs the first agent 0.5, pays the second 1.0 and leaves the rest at 0 |
| Simulation.PlayKeepsTotalValue | simulation.py:139-171 | over a run the total payoff never falls and grows by at most 0.5 per step |
| Simulation.DeceptionKeepsTotalValue | simulation.py:157-171 | deception never changes the total payoff |
| Simulation.Mutated | simulation.py:129-132 | mutation keeps value and reputation, keeps the probability in [0, 1] and moves it by at most the rate |
| Simulation.Born | simulation.py:121-126 | one child per offspring |
| Simulation.GrowTake | simulation.py:122-126 | appending a copy while children are missing adds one reset and mutated child; otherwise none |
| Simulation.Selected | simulation.py:79-127 | the next generation has the population's size |
| Simulation.SelectedAt | simulation.py:112-126 | survivors are reset copies of the fittest, and each child is a reset, mutated copy of the offspring at its position |
| Simulation.SelectedReset | simulation.py:114-124 | every agent of the next generation starts with value 0 and reputation 0 |
| Simulation.SelectedSurvivors | simulation.py:112-115 | the first `number_of_surviving_agents` are the fittest agents, reset |
| Simulation.SelectedChildren | simulation.py:117-126 | every child is a reset, mutated copy of one of the parents |
| Simulation.RankingKeepsWellFormed | simulation.py:88 | sorting keeps every agent well-formed |
| Simulation.SelectedWellFormed | simulation.py:79-127 | selection keeps every agent well-formed |
| Simulation.SelectedMutationBound | simulation.py:117-132 | every child's deception probability is within the mutation rate of some parent's |
| Simulation.Values | simulation.py:184-185 | the value row of the log |
| Simulation.Reputations | simulation.py:184-185 | the reputation row of the log |
| Simulation.DeceptionProbabilities | simulation.py:184-185 | the deception-probability row of the log |
| Simulation.Logged | simulation.py:181-185 | logging appends exactly one row per property, holding the current population, and keeps the earlier rows |
| Simulation.LoggedRowsClosedForm | simulation.py:52-68 | after g - 1 generations and s steps the log has (g - 1) * (budget + 1) + s rows |
| Simulation.LoggedRowsStep | simulation.py:58 | every interaction step logs one row |
| Simulation.LoggedRowsRollover | simulation.py:62 | every generation boundary logs one row |
| Simulation.LoggedKeepsShape | simulation.py:58-62 | logging keeps the log's shape in step with the row count |
| Simulation.ShareOfParent | simulation.py:106-108 | the expression the shares loop evaluates for a parent is that parent's ranked share |
| Simulation.ComputeShares | simulation.py:91-110 | the shares loop computes the ranked shares and their sum |
| Simulation.ResetSurvivors | simulation.py:113-115 | the survivors are the fittest agents, reset |
| Simulation.AppendChildren | simulation.py:117-126 | the children loop appends the mutated offspring of the counts' repeat truncated to the missing children |
| Simulation.NumberOfChildren | simulation.py:120 | `math.ceil(children * share / sum_of_shares)` is the count of `m * share` |
| Simulation.AppendCopies | simulation.py:121-126 | the inner loop appends one parent's copies while children are missing |
| Simulation.BreedChildren | simulation.py:90-126 | the loops append the mutated offspring to the survivors |
| Simulation.SelectFromRanking | simulation.py:90-127 | the whole body after the sort computes `Selected` |
| Simulation.Simulation.constructor | simulation.py:33-45 | all agents fresh, counters 0 and 1, nothing recorded, an empty log |
| Simulation.Simulation.CooperationStep | simulation.py:139-154 | the two in-place updates compute `CooperationRound` |
| Simulation.Simulation.DeceptionStep | simulation.py:157-171 | the in-place updates compute `DeceptionRound` |
| Simulation.Simulation.UpdateLog | simulation.py:181-185 | the log gets exactly the current row |
| Simulation.Simulation.SelectAgents | simulation.py:79-127 | the population becomes `Selected` of its sorted self |
| Simulation.Simulation.Interact | simulation.py:54-59 | one interaction step and its log row; counter + 1 |
| Simulation.Simulation.Rollover | simulation.py:61-67 | log the old population, clear the relation, select, next generation, counter 0 |
| Simulation.Simulation.Step | simulation.py:52-68 | an interaction step while the budget lasts, a rollover at its end before the last generation, otherwise nothing changes and the result is False |
| Simulation.Simulation.CalculateGeneration | simulation.py:71-76 | plays out the generation and rolls over (the next generation is `Selected`), or stops in the last generation, or reports the division by a zero sum |
| Simulation.Simulation.PlayOut | simulation.py:75 | the loop of steps plays the rest of the generation |
| SimulationNumpy.ZeroAgent | simulation_numpy.py:46 | an `np.zeros` record: value 0, reputation 0, in range |
| SimulationNumpy.InitialAgents | simulation_numpy.py:49-51 | init_agents per class: zero values and reputations with probability 0.5, the drawn strategies, or the strategies and noise 0.5 |
| SimulationNumpy.ZeroRow | simulation_numpy.py:46 | a log row of zero records |
| SimulationNumpy.CooperationRound | simulation_numpy.py:135-150 | the round keeps size, layout and ranges, touches only the two positions and records the pair; the relation is cooperate exactly when the policy holds (partner's reputation not negative; in the experiments, strategy not above it), defect otherwise |
| SimulationNumpy.DeceptionRound | simulation_numpy.py:153-164 | skipped below the exchange probability; otherwise the pair is recorded, values kept, only the two positions touched, and the relation becomes deception only when the deceiver is caught, else stays as it was |
| SimulationNumpy.AliasedInteractionRound | simulation_numpy.py:167-170 | the step as the engine runs it, both rounds on the first drawn agent: keeps the size and every agent's ranges |
| SimulationNumpy.InteractionRound | tests/test_simulation_numpy.py:27-56 | the corrected step the test expects, on the two drawn agents: keeps the size and every agent's ranges |
| SimulationNumpy.Play | simulation_numpy.py:54-60 | a run of steps as the engine runs them keeps the size and every agent's ranges |
| SimulationNumpy.PlaySnoc | simulation_numpy.py:54-60 | one more draw plays one more step as written |
| SimulationNumpy.FirstStepPaysNobody | simulation_numpy.py:170 | as written, nobody gains 1.0 or pays 0.5 in the first step; the first agent ends with 0.5 |
| SimulationNumpy.FirstStepPays | tests/test_simulation_numpy.py:27-56 | with distinct agents the first step costs one agent 0.5, pays one 1.0 and leaves the rest at 0 |
| SimulationNumpy.RoundTouchesPairs | simulation_numpy.py:135-170 | as written a step changes only the agents at the first index of each pair (of the cooperation pair alone in the experiments); with the corrected draw, at most the four agents the pairs name |
| SimulationNumpy.PlayWithoutDeception | tests/test_simulation_numpy.py:69-75 | as the engine runs, with zero deception probabilities reputations stay non-negative over any number of steps |
| SimulationNumpy.StepWithDeception | tests/test_simulation_numpy.py:77-89 | as the engine runs, when everybody deceives and reputations start at 0: the cooperating agent has 1, the others 0, except the deceiver, which badmouths itself and ends one point lower, two on repercussion (unchanged when the exchange is skipped); at most one reputation is negative |
| SimulationNumpy.RoundTotalValue | simulation_numpy.py:135-170 | as written and with the corrected draw alike, a step adds 0 or 0.5 to the total payoff in the base game, 0.1 or 1.0 in the experiments |
| SimulationNumpy.PlayTotalValue | simulation_numpy.py:54-60 | as the engine runs, a generation's total payoff never falls and grows by at most 1.0 per step |
| SimulationNumpy.ShiftedProbabilities | simulation_numpy.py:124-127 | the shifted probabilities keep the children's number |
| SimulationNumpy.MutatedChildren | simulation_numpy.py:119 | mutation per class keeps the children's number |
| SimulationNumpy.MutatedChildAt | simulation_numpy.py:124-127 | a mutated child stays in range with value and reputation kept, a probability within the rate, and unnamed strategies or noises kept |
| SimulationNumpy.RankingWellFormed | simulation_numpy.py:91 | every ranking of a well-formed population is well-formed |
| SimulationNumpy.RankingOf | simulation_numpy.py:91 | `argsort()[::-1]` gives a permutation of the population in non-increasing order, of the same size and ranges |
| SimulationNumpy.OffspringWellFormed | simulation_numpy.py:113-118 | every child copies one of the parents and is well-formed |
| SimulationNumpy.Selected | simulation_numpy.py:79-121 | the next generation has the population's size |
| SimulationNumpy.MutatedOffspring | simulation_numpy.py:113-119 | exactly the number of children is born |
| SimulationNumpy.SelectedAt | simulation_numpy.py:110-121 | survivors are the reset fittest; each child is a reset, mutated copy of its offspring |
| SimulationNumpy.SelectedWellFormed | simulation_numpy.py:110-121 | selection keeps ranges, resets value and reputation, and keeps the fittest as survivors |
| SimulationNumpy.SelectedChildren | simulation_numpy.py:113-121 | every child comes from one parent: its probability within the mutation rate, or (without a mutation aimed at it) the parent itself reset |
| SimulationNumpy.Breed | simulation_numpy.py:93-118 | the counts and repeat compute the offspring |
| SimulationNumpy.Simulation.constructor | simulation_numpy.py:35-47 | agents from init_agents, counters 0 and 1, a zero log of G + 1 rows except row 1, the initial population |
| SimulationNumpy.Simulation.CooperationStep | simulation_numpy.py:135-150 | the in-place writes through the two names, both the record at the pair's first index, compute `CooperationRound` at that position twice |
| SimulationNumpy.Simulation.DeceptionStep | simulation_numpy.py:153-164 | the in-place writes through the two names, both the record at the pair's first index, compute `DeceptionRound` at that position twice |
| SimulationNumpy.Simulation.Interact | simulation_numpy.py:56-60 | one step as written (`AliasedInteractionRound`); counter + 1 |
| SimulationNumpy.Simulation.MutateProbabilities | simulation_numpy.py:124-127 | the children view becomes `ShiftedProbabilities`, the survivors are untouched |
| SimulationNumpy.Simulation.MutateStrategies | experiment_1.py:59-69 | the children view becomes `MutatedStrategies` |
| SimulationNumpy.Simulation.MutateNoises | experiment_3.py:47-51 | the children view becomes `MutatedNoises` |
| SimulationNumpy.Simulation.MutateAgents | experiment_3.py:39-51 | mutate_agents of the engine's class on the children view |
| SimulationNumpy.Simulation.ResetAgents | simulation_numpy.py:129-132 | every value and reputation becomes 0 |
| SimulationNumpy.Simulation.SelectAgents | simulation_numpy.py:79-121 | the population becomes `Selected` of the ranking |
| SimulationNumpy.Simulation.CarryOver | simulation_numpy.py:110-118 | the population becomes the survivors followed by the offspring |
| SimulationNumpy.Simulation.Rollover | simulation_numpy.py:62-67 | the current row of the log receives the population, then selection and the next generation |
| SimulationNumpy.Simulation.Step | simulation_numpy.py:54-68 | an interaction step while the budget lasts, a rollover at its end before the last generation, otherwise nothing changes and the result is False |
| SimulationNumpy.Simulation.CalculateGeneration | simulation_numpy.py:71-76 | plays out the generation and rolls over, or stops in the last generation, or reports the failed `np.repeat` |
| SimulationNumpy.Simulation.PlayOut | simulation_numpy.py:75 | the loop of steps plays the rest of the generation |
| HelperWidgets.ReplaceUnderscores | helper_widgets.py:116 | `replace("_", " ")` keeps the length |
| HelperWidgets.KeyToLabelText | helper_widgets.py:115-116 | the label has the key's length |
| HelperWidgets.UpperFacts | helper_widgets.py:116 | upper-casing maps a-z to A-Z, keeps other characters, never makes or removes `_`, and is idempotent |
| HelperWidgets.KeyToLabelTextExample | helper_widgets.py:115 | `variable_name_string` becomes `Variable name string` |
| HelperWidgets.KeyToLabelTextShape | helper_widgets.py:115-116 | no underscore is left, the first character is upper-cased (or a space), the rest copied with spaces for underscores |
| HelperWidgets.KeyToLabelTextIdempotent | helper_widgets.py:115-116 | a label is its own label |

## Left out

- The GUI, the plots and `Diagram` classes, the widgets, `start_simulation.py` and `experiment_2.py` are not part of this model.
- Random number generation is not modelled. Every draw is a parameter with the range of its generator:
  - `randint` and `np.random.choice` positions below the population size;
  - `random()` in [0, 1);
  - `uniform(-rate, rate)`;
  - `randint(-4, 6)`;
  - `random() - 0.5` in [-0.5, 0.5).
- The binomial number of mutations is the length of the index sequence drawn for it. Random positions are below the number of children, so a mutation with no children is not modelled.
- Floating point is modelled as exact reals. Rounding of the payoffs and shares is not captured.
- The mutable class-level `Settings` is an immutable record handed to each engine. Changing settings while a simulation runs is not modelled.
- In the list engine a reputation lowered by `- 1.0` becomes a Python float with an integral value. In the numpy engine it is stored back into an integer field. The model keeps reputations as `int` throughout.
- The zero sum of shares is not modelled beyond the point where it fails. It happens when the influence is 1 and all fitnesses are equal:
  - the list engine raises `ZeroDivisionError`;
  - the numpy engine makes `np.repeat` fail on `nan` counts.
  
  Both `CalculateGeneration` methods report `raised` and stop before the boundary. The writes the source makes before the exception are not modelled:
  - the list engine's log row, cleared relation and sort;
  - the numpy engine's log row and survivors copy.
- Simulation.Simulation.Step and SimulationNumpy.Simulation.Step: the generation boundary requires shares whose sum is positive. The degenerate case is the exception above.
- NumpyIndexing.FancyAssign and NumpyIndexing.FancyAdd: numpy does not say which write to a repeated index takes effect. The model chooses index order, so the last write wins. NumpyIndexing.FancyAssignSnoc, NumpyIndexing.FancyAssignLast, NumpyIndexing.FancyAddRepeated and Experiment1.MutatedStrategyLast depend on that choice; the positions drawn at experiment_1.py:68-69 and experiment_3.py:44-45, 49-50 can repeat.
- SimulationNumpy.RankingOf: any permutation in non-increasing order of value. The particular order numpy's `argsort` gives to equal values is left open.
- HelperWidgets.UpperFacts and HelperWidgets.KeyToLabelText: upper-cases ASCII letters only. Python's `str.upper` also maps other letters, and can lengthen a string (`ß` becomes `SS`).
- The noisy cooperation policy of experiment_3 (`Experiment3.NoisyCooperationPolicy`) is defined there but never called. Its engine keeps experiment_1's `cooperation_step`, which calls experiment_1's module-level policy, so the model does the same.
- Experiment_3's `_update_log` override is never called by the numpy engine, so it is left out. The same holds for experiment_1's.
- `simulation.py:16` holds a stray name `ereiam`, which would stop the module from importing. The model treats the file as if that line were absent.
- The numpy engine's test expects a log of `number_of_generations` rows (tests/test_simulation_numpy.py:23). The code allocates `number_of_generations + 1` rows, and the model follows the code. The test also imports `AGENT`, which the code comments out (simulation_numpy.py:32).

## Findings

| source | as written | input that shows it | evidently intended | confidence | as-written member | corrected member |
|---|---|---|---|---|---|---|
| simulation_numpy.py:170 | `_get_two_agents` returns `self.agents[self.last_agent_0_index]` twice, so every cooperation and deception step of the numpy engine (and of both experiments) lets one agent play against itself | a fresh base-game population of 20 agents, any drawn pair (3, 7): agent 3 cooperates with itself and ends with value 0.5, nobody gets 1.0 or pays 0.5 | return the agents at both drawn indices, as the list engine does (simulation.py:140-141) and as tests/test_simulation_numpy.py:53-54 expect (one payoff, one cost) | not executed | SimulationNumpy.FirstStepPaysNobody | SimulationNumpy.FirstStepPays |

The numpy engine's class runs the step as written (`SimulationNumpy.AliasedInteractionRound`), and
so do `Play` and the lemmas about it. The corrected step, on the two drawn agents, is
`SimulationNumpy.InteractionRound`. `FirstStepPays` proves the outcome the test expects about it,
and `RoundTouchesPairs` and `RoundTotalValue` state their facts for both steps.
