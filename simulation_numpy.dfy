/** The numpy engine of simulation_numpy.py and the two experiments that subclass it
    (experiment_1.py, experiment_3.py). The population is a fixed-size structured array that
    the engine updates in place, and the log is a preallocated array with one row per
    generation. The three classes differ in their agent record, their cooperation rule,
    whether step() runs a deception round, and how children mutate; `Variant` names the
    class an engine object was made from. Every random draw is a parameter of the method
    that makes it, and the order `argsort()[::-1]` gives to equally fit agents is a
    parameter of selection (any ranking of the population). */
module SimulationNumpy {
  import opened Agents
  import opened Configuration
  import opened Interaction
  import opened Selection
  import opened NumpyIndexing
  import Experiment1
  import Experiment3

  /** simulation_numpy.Simulation, experiment_1.Simulation and experiment_3.Simulation. */
  datatype Variant = DeceptionGame | StrategyGame | NoisyStrategyGame

  // ---------------------------------------------------------------- agents

  /** The record layout of the variant's dtype. */
  predicate HasLayout(variant: Variant, a: Agent) {
    match variant
    case DeceptionGame => a.traits.Deceiver?
    case StrategyGame => a.traits.Strategist?
    case NoisyStrategyGame => a.traits.NoisyStrategist?
  }

  predicate AllHaveLayout(variant: Variant, s: seq<Agent>) {
    forall i :: 0 <= i < |s| ==> HasLayout(variant, s[i])
  }

  /** The ranges every agent of the variant keeps: reputation in [-5, 5], and a deception
      probability in [0, 1], or a strategy in [-5, 5] (with a noise in [0, 5]). */
  predicate WellFormed(variant: Variant, a: Agent) {
    && HasLayout(variant, a)
    && ReputationInRange(a.reputation)
    && (variant == DeceptionGame ==> 0.0 <= a.traits.deceptionProbability <= 1.0)
    && (variant != DeceptionGame ==> Experiment1.StrategyInRange(a.traits.strategy))
    && (variant == NoisyStrategyGame ==> Experiment3.MinNoise <= a.traits.noise <= Experiment3.MaxNoise)
  }

  predicate AllWellFormed(variant: Variant, s: seq<Agent>) {
    forall i :: 0 <= i < |s| ==> WellFormed(variant, s[i])
  }

  /** A record of `np.zeros(..., dtype)`: every field zero. */
  function ZeroAgent(variant: Variant): (a: Agent)
    ensures a.value == 0.0 && a.reputation == 0 && WellFormed(variant, a)
  {
    match variant
    case DeceptionGame => Agent(0.0, 0, Deceiver(0.0))
    case StrategyGame => Agent(0.0, 0, Strategist(0))
    case NoisyStrategyGame => Agent(0.0, 0, NoisyStrategist(0, 0.0))
  }

  /** `np.random.randint(-5, 6, size=n)`. */
  predicate StrategiesInRange(strategies: seq<int>) {
    forall i :: 0 <= i < |strategies| ==> Experiment1.StrategyInRange(strategies[i])
  }

  /** The population init_agents creates: zeros, then a deception probability of 0.5
      (simulation_numpy.py:49-51), or the drawn strategies (experiment_1.py:35-38), or the
      drawn strategies and the configured noise (experiment_3.py:32-36). */
  function InitialAgents(variant: Variant, n: nat, strategies: seq<int>): (s: seq<Agent>)
    requires variant != DeceptionGame ==> |strategies| == n
    ensures |s| == n
    ensures forall i :: 0 <= i < n ==> s[i].value == 0.0 && s[i].reputation == 0 && HasLayout(variant, s[i])
    ensures variant == DeceptionGame ==> forall i :: 0 <= i < n ==> s[i].traits == Deceiver(0.5)
    ensures variant == StrategyGame ==> forall i :: 0 <= i < n ==> s[i].traits == Strategist(strategies[i])
    ensures variant == NoisyStrategyGame ==> forall i :: 0 <= i < n ==> s[i].traits == NoisyStrategist(strategies[i], Experiment3Noise)
    ensures variant == DeceptionGame || StrategiesInRange(strategies) ==> AllWellFormed(variant, s)
  {
    match variant
    case DeceptionGame => seq(n, _ => Agent(0.0, 0, Deceiver(0.5)))
    case StrategyGame => seq(n, i requires 0 <= i < n => Agent(0.0, 0, Strategist(strategies[i])))
    case NoisyStrategyGame => seq(n, i requires 0 <= i < n => Experiment3.NewAgent(strategies[i], Experiment3Noise))
  }

  /** A log row of `np.zeros((G + 1, N), dtype)`. */
  function ZeroRow(variant: Variant, n: nat): (row: seq<Agent>)
    ensures |row| == n && forall i :: 0 <= i < n ==> row[i] == ZeroAgent(variant)
  {
    seq(n, _ => ZeroAgent(variant))
  }

  // ---------------------------------------------------------------- random draws

  /** `np.random.choice(n, 2, replace=False)`: two different indices below `n`. */
  predicate PairInRange(p: Pair, n: nat) {
    p.Pair? && p.first < n && p.second < n && p.first != p.second
  }

  /** The draws one interaction step may consume: the cooperation pair, the skip draw of
      the deception step, its pair, the deception draw and the repercussion draw. The two
      experiments consume the cooperation pair only. */
  datatype StepDraws = StepDraws(cooperation: Pair, exchange: real, deception: Pair,
                                 deceptionDraw: real, repercussion: real)

  predicate DrawsInRange(d: StepDraws, n: nat) {
    && PairInRange(d.cooperation, n) && PairInRange(d.deception, n)
    && 0.0 <= d.exchange < 1.0 && 0.0 <= d.deceptionDraw < 1.0 && 0.0 <= d.repercussion < 1.0
  }

  /** Draws for a call of step() that consumes none (the generation boundary). */
  const NoDraws: StepDraws := StepDraws(Pair(0, 1), 0.0, Pair(0, 1), 0.0, 0.0)

  /** The draws of mutate_agents for each variant: one uniform shift per child
      (simulation_numpy.py:126); the positions and fresh strategies of the strategy
      mutations (experiment_1.py:67-69); and, for experiment_3, also the positions and
      `random() - 0.5` shifts of the noise mutations (experiment_3.py:48-50). The number of
      mutations, a binomial draw, is the length of the index sequences. */
  datatype MutationDraws = MutationDraws(
    shifts: seq<real>,
    strategyIndices: seq<nat>, strategies: seq<int>,
    noiseIndices: seq<nat>, noiseShifts: seq<real>)

  /** The lengths and index bounds a variant's mutation relies on, for `children` children. */
  predicate MutationFits(variant: Variant, m: MutationDraws, children: nat) {
    match variant
    case DeceptionGame => |m.shifts| == children
    case StrategyGame => |m.strategyIndices| == |m.strategies| && IndicesBelow(m.strategyIndices, children)
    case NoisyStrategyGame =>
      && |m.strategyIndices| == |m.strategies| && IndicesBelow(m.strategyIndices, children)
      && |m.noiseIndices| == |m.noiseShifts| && IndicesBelow(m.noiseIndices, children)
  }

  /** The ranges of the draws: `uniform(-rate, rate)`, `randint(-4, 6)` and `random() - 0.5`. */
  predicate MutationInRange(variant: Variant, m: MutationDraws, children: nat, rate: real) {
    && MutationFits(variant, m, children)
    && (variant == DeceptionGame ==> forall k :: 0 <= k < |m.shifts| ==> -rate <= m.shifts[k] <= rate)
    && (variant != DeceptionGame ==>
          forall j :: 0 <= j < |m.strategies| ==> Experiment1.MinMutatedStrategy <= m.strategies[j] <= Experiment1.MaxStrategy)
    && (variant == NoisyStrategyGame ==> forall j :: 0 <= j < |m.noiseShifts| ==> -0.5 <= m.noiseShifts[j] < 0.5)
  }

  // ---------------------------------------------------------------- interaction rounds

  /** cooperation_step (simulation_numpy.py:135-150, experiment_1.py:78-96) with the agents at
      positions `a` and `b`, the drawn pair recorded as the last pair. The relation is
      "cooperate" exactly when the policy holds: in the base game when `b`'s reputation is not
      negative, in the experiments when `a`'s strategy does not exceed `b`'s reputation. */
  function CooperationRound(variant: Variant, s: seq<Agent>, pair: Pair, a: nat, b: nat): (r: Round)
    requires PairInRange(pair, |s|) && a < |s| && b < |s| && AllHaveLayout(variant, s)
    ensures |r.agents| == |s| && r.pair == pair
    ensures AllHaveLayout(variant, r.agents)
    ensures AllWellFormed(variant, s) ==> AllWellFormed(variant, r.agents)
    ensures forall i :: 0 <= i < |s| && i != a && i != b ==> r.agents[i] == s[i]
    ensures r.relation == Cooperate || r.relation == Defect
    ensures variant == DeceptionGame ==> (r.relation == Cooperate <==> s[b].reputation >= 0)
    ensures variant != DeceptionGame ==> (r.relation == Cooperate <==> s[a].traits.strategy <= s[b].reputation)
  {
    if variant == DeceptionGame then
      assert AllWellFormed(variant, s) ==> AllWellFormed(variant, Cooperation(s, a, b)) by {
        if AllWellFormed(variant, s) {
          CooperationKeepsRange(s, a, b);
        }
      }
      Round(Cooperation(s, a, b), if CooperationPolicy(s[a], s[b]) then Cooperate else Defect, pair)
    else
      assert AllWellFormed(variant, s) ==> AllWellFormed(variant, Experiment1.Cooperation(s, a, b)) by {
        if AllWellFormed(variant, s) {
          Experiment1.CooperationKeepsRange(s, a, b);
        }
      }
      Round(Experiment1.Cooperation(s, a, b),
            if Experiment1.CooperationPolicy(s[a], s[b]) then Cooperate else Defect, pair)
  }

  /** deception_step (simulation_numpy.py:153-164) with the agents at positions `a` and `b`:
      skipped, with the pair left as it was, when the skip draw falls below the exchange
      probability; otherwise the pair is drawn and `a` may badmouth `b`. The relation becomes
      "deception" only when `a` deceives and is caught, and is left as it was otherwise. */
  function DeceptionRound(settings: Settings, r: Round, d: StepDraws, a: nat, b: nat): (t: Round)
    requires DrawsInRange(d, |r.agents|) && a < |r.agents| && b < |r.agents|
    requires AllHaveLayout(DeceptionGame, r.agents)
    ensures |t.agents| == |r.agents|
    ensures AllHaveLayout(DeceptionGame, t.agents)
    ensures AllWellFormed(DeceptionGame, r.agents) ==> AllWellFormed(DeceptionGame, t.agents)
    ensures d.exchange < settings.probabilityOfAReputationExchange ==> t == r
    ensures forall i :: 0 <= i < |r.agents| && i != a && i != b ==> t.agents[i] == r.agents[i]
    ensures forall i :: 0 <= i < |r.agents| ==> t.agents[i].value == r.agents[i].value
    ensures d.exchange >= settings.probabilityOfAReputationExchange ==>
      && t.pair == d.deception
      && t.relation == (if ReputationPolicy(r.agents[a], d.deceptionDraw) && d.repercussion < settings.probabilityOfRepercussion
                        then Deception else r.relation)
  {
    if d.exchange < settings.probabilityOfAReputationExchange then r
    else
      var deceived := ReputationPolicy(r.agents[a], d.deceptionDraw);
      var repercussion := d.repercussion < settings.probabilityOfRepercussion;
      assert AllWellFormed(DeceptionGame, r.agents) ==>
             AllWellFormed(DeceptionGame, Badmouth(r.agents, a, b, deceived, repercussion)) by {
        if AllWellFormed(DeceptionGame, r.agents) {
          BadmouthKeepsRange(r.agents, a, b, deceived, repercussion);
        }
      }
      Round(Badmouth(r.agents, a, b, deceived, repercussion),
            if deceived && repercussion then Deception else r.relation,
            d.deception)
  }

  /** The interaction phase of one step() as the engine runs it: _get_two_agents
      (simulation_numpy.py:167-170) records the drawn pair but returns the agent at the first
      index for both names, so in both rounds the agent plays against itself and the second
      index is never touched. A deception round follows in the base game only
      (experiment_1.py:41-46 leaves it out). */
  function AliasedInteractionRound(variant: Variant, settings: Settings, r: Round, d: StepDraws): (t: Round)
    requires DrawsInRange(d, |r.agents|) && AllWellFormed(variant, r.agents)
    ensures |t.agents| == |r.agents| && AllWellFormed(variant, t.agents)
  {
    var i := d.cooperation.first;
    var c := CooperationRound(variant, r.agents, d.cooperation, i, i);
    if variant == DeceptionGame then DeceptionRound(settings, c, d, d.deception.first, d.deception.first) else c
  }

  /** The interaction phase of one step() with the two agents the pair names, as the
      engine's tests expect: a cooperation round, followed by a deception round in the base
      game only. */
  function InteractionRound(variant: Variant, settings: Settings, r: Round, d: StepDraws): (t: Round)
    requires DrawsInRange(d, |r.agents|) && AllWellFormed(variant, r.agents)
    ensures |t.agents| == |r.agents| && AllWellFormed(variant, t.agents)
  {
    var c := CooperationRound(variant, r.agents, d.cooperation, d.cooperation.first, d.cooperation.second);
    if variant == DeceptionGame then DeceptionRound(settings, c, d, d.deception.first, d.deception.second) else c
  }

  /** A whole sequence of interaction steps, as the engine runs them. */
  function Play(variant: Variant, settings: Settings, r: Round, draws: seq<StepDraws>): (t: Round)
    requires AllWellFormed(variant, r.agents)
    requires forall k :: 0 <= k < |draws| ==> DrawsInRange(draws[k], |r.agents|)
    ensures |t.agents| == |r.agents| && AllWellFormed(variant, t.agents)
  {
    if draws == [] then r
    else AliasedInteractionRound(variant, settings, Play(variant, settings, r, draws[..|draws| - 1]), draws[|draws| - 1])
  }

  /** Playing one more step of a longer sequence of draws. */
  lemma PlaySnoc(variant: Variant, settings: Settings, r: Round, draws: seq<StepDraws>, k: nat)
    requires AllWellFormed(variant, r.agents) && k < |draws|
    requires forall k :: 0 <= k < |draws| ==> DrawsInRange(draws[k], |r.agents|)
    ensures |Play(variant, settings, r, draws[..k]).agents| == |r.agents|
    ensures Play(variant, settings, r, draws[..k + 1]) ==
            AliasedInteractionRound(variant, settings, Play(variant, settings, r, draws[..k]), draws[k])
  {
    assert draws[..k + 1][..k] == draws[..k];
  }

  /** As written, the first step from a fresh base-game population pays nobody 1.0 and
      costs nobody 0.5: the agent at the first drawn index ends with 0.5, because it
      cooperates with itself. */
  lemma FirstStepPaysNobody(settings: Settings, n: nat, d: StepDraws)
    requires n >= 2 && DrawsInRange(d, n)
    ensures var t := AliasedInteractionRound(DeceptionGame, settings, Round(InitialAgents(DeceptionGame, n, []), NoRelation, NoPair), d);
      && t.agents[d.cooperation.first].value == 0.5
      && forall i :: 0 <= i < n ==> t.agents[i].value != 1.0 && t.agents[i].value != -0.5
  {
    var s := InitialAgents(DeceptionGame, n, []);
    var i := d.cooperation.first;
    CooperationOfOne(s, i);
    var c := CooperationRound(DeceptionGame, s, d.cooperation, i, i);
    assert c.agents[i].value == 0.5;
    assert forall k :: 0 <= k < n && k != i ==> c.agents[k].value == 0.0;
  }

  /** With two distinct agents the first step from a fresh base-game population pays exactly
      one agent 1.0 and costs exactly one agent 0.5 (tests/test_simulation_numpy.py:27-56). */
  lemma FirstStepPays(settings: Settings, n: nat, d: StepDraws)
    requires n >= 2 && DrawsInRange(d, n)
    ensures var t := InteractionRound(DeceptionGame, settings, Round(InitialAgents(DeceptionGame, n, []), NoRelation, NoPair), d);
      && t.agents[d.cooperation.first].value == -0.5
      && t.agents[d.cooperation.second].value == 1.0
      && forall i :: 0 <= i < n && i != d.cooperation.first && i != d.cooperation.second ==> t.agents[i].value == 0.0
  {
    var s := InitialAgents(DeceptionGame, n, []);
    CooperationOfTwo(s, d.cooperation.first, d.cooperation.second);
  }

  /** The agents one step touches: as the engine runs it, only the agent at the first index
      of the cooperation pair and, in the base game, the one at the first index of the
      deception pair; with two distinct agents, at most the four agents the two pairs name. */
  lemma RoundTouchesPairs(variant: Variant, settings: Settings, r: Round, d: StepDraws)
    requires DrawsInRange(d, |r.agents|) && AllWellFormed(variant, r.agents)
    ensures var t := AliasedInteractionRound(variant, settings, r, d);
      forall i :: 0 <= i < |r.agents| && i != d.cooperation.first &&
                  (variant == DeceptionGame ==> i != d.deception.first) ==>
        t.agents[i] == r.agents[i]
    ensures var t := InteractionRound(variant, settings, r, d);
      forall i :: 0 <= i < |r.agents| && i != d.cooperation.first && i != d.cooperation.second &&
                  (variant == DeceptionGame ==> i != d.deception.first && i != d.deception.second) ==>
        t.agents[i] == r.agents[i]
  {
  }

  /** Nobody deceives and no reputation is negative. */
  predicate NeverDeceiving(s: seq<Agent>) {
    forall i :: 0 <= i < |s| ==>
      s[i].reputation >= 0 && s[i].traits.Deceiver? && s[i].traits.deceptionProbability == 0.0
  }

  /** With every deception probability at zero nobody is ever badmouthed, and the agent that
      plays against itself sees its own non-negative reputation, so it cooperates and gains
      a point: reputations stay non-negative and deception probabilities stay zero over any
      number of steps (tests/test_simulation_numpy.py:69-75). */
  lemma {:induction false} PlayWithoutDeception(settings: Settings, r: Round, draws: seq<StepDraws>)
    requires AllWellFormed(DeceptionGame, r.agents) && NeverDeceiving(r.agents)
    requires forall k :: 0 <= k < |draws| ==> DrawsInRange(draws[k], |r.agents|)
    ensures NeverDeceiving(Play(DeceptionGame, settings, r, draws).agents)
  {
    if draws != [] {
      var n := |draws| - 1;
      PlayWithoutDeception(settings, r, draws[..n]);
      var before := Play(DeceptionGame, settings, r, draws[..n]);
      var i := draws[n].cooperation.first;
      CooperationOfOne(before.agents, i);
      var c := CooperationRound(DeceptionGame, before.agents, draws[n].cooperation, i, i);
      assert NeverDeceiving(c.agents);
      var e := draws[n].deception.first;
      ReputationPolicyExtremes(c.agents[e], draws[n].deceptionDraw);
    }
  }

  /** When every agent deceives for certain and all reputations are zero, one step as the
      engine runs it leaves a negative reputation at most at the deceiver, which badmouths
      itself: it loses one point, and a second one on repercussion, after gaining one if it
      was also the cooperating agent. Every other agent keeps reputation 0, except the
      cooperating agent, which has 1 (tests/test_simulation_numpy.py:77-89 allows up to two
      negative reputations). */
  lemma StepWithDeception(settings: Settings, r: Round, d: StepDraws)
    requires DrawsInRange(d, |r.agents|) && AllWellFormed(DeceptionGame, r.agents)
    requires forall i :: 0 <= i < |r.agents| ==> r.agents[i].reputation == 0 && r.agents[i].traits.deceptionProbability == 1.0
    ensures var t := AliasedInteractionRound(DeceptionGame, settings, r, d);
      var e := d.deception.first;
      var gained := if e == d.cooperation.first then 1 else 0;
      && (forall i :: 0 <= i < |r.agents| && i != e ==>
            t.agents[i].reputation == if i == d.cooperation.first then 1 else 0)
      && t.agents[e].reputation ==
           if d.exchange < settings.probabilityOfAReputationExchange then gained
           else if d.repercussion < settings.probabilityOfRepercussion then gained - 2
           else gained - 1
  {
    var i := d.cooperation.first;
    CooperationOfOne(r.agents, i);
    var c := CooperationRound(DeceptionGame, r.agents, d.cooperation, i, i);
    var e := d.deception.first;
    if d.exchange >= settings.probabilityOfAReputationExchange {
      ReputationPolicyExtremes(c.agents[e], d.deceptionDraw);
      BadmouthOfOne(c.agents, e, d.repercussion < settings.probabilityOfRepercussion);
    }
  }

  /** The change of the total payoff in one step, as the engine runs it and with two distinct
      agents alike: 0.5 per cooperation in the base game, 1.0 per cooperation and 0.1 per
      defection in the experiments; deception moves none. */
  lemma RoundTotalValue(variant: Variant, settings: Settings, r: Round, d: StepDraws)
    requires DrawsInRange(d, |r.agents|) && AllWellFormed(variant, r.agents)
    ensures var gain := TotalValue(AliasedInteractionRound(variant, settings, r, d).agents) - TotalValue(r.agents);
      if variant == DeceptionGame then gain == 0.0 || gain == 0.5 else gain == 0.1 || gain == 1.0
    ensures var gain := TotalValue(InteractionRound(variant, settings, r, d).agents) - TotalValue(r.agents);
      if variant == DeceptionGame then gain == 0.0 || gain == 0.5 else gain == 0.1 || gain == 1.0
  {
    var p := d.cooperation;
    var aliased := CooperationRound(variant, r.agents, p, p.first, p.first);
    var c := CooperationRound(variant, r.agents, p, p.first, p.second);
    if variant == DeceptionGame {
      CooperationTotalValue(r.agents, p.first, p.first);
      CooperationTotalValue(r.agents, p.first, p.second);
      var e := d.deception;
      SameValuesSameTotal(DeceptionRound(settings, aliased, d, e.first, e.first).agents, aliased.agents);
      SameValuesSameTotal(DeceptionRound(settings, c, d, e.first, e.second).agents, c.agents);
    } else {
      Experiment1.CooperationTotalValue(r.agents, p.first, p.first);
      Experiment1.CooperationTotalValue(r.agents, p.first, p.second);
    }
  }

  /** Over a generation the total payoff never falls and grows by at most 1.0 per step. */
  lemma {:induction false} PlayTotalValue(variant: Variant, settings: Settings, r: Round, draws: seq<StepDraws>)
    requires AllWellFormed(variant, r.agents)
    requires forall k :: 0 <= k < |draws| ==> DrawsInRange(draws[k], |r.agents|)
    ensures TotalValue(r.agents) <= TotalValue(Play(variant, settings, r, draws).agents)
    ensures TotalValue(Play(variant, settings, r, draws).agents) <= TotalValue(r.agents) + |draws| as real
  {
    if draws != [] {
      var n := |draws| - 1;
      PlayTotalValue(variant, settings, r, draws[..n]);
      RoundTotalValue(variant, settings, Play(variant, settings, r, draws[..n]), draws[n]);
    }
  }

  // ---------------------------------------------------------------- selection

  /** mutate_agents of the base game (simulation_numpy.py:124-127): every child's deception
      probability moves by its uniform shift and is clipped to [0, 1]. */
  function ShiftedProbabilities(children: seq<Agent>, shifts: seq<real>): (t: seq<Agent>)
    requires |shifts| == |children| && AllHaveLayout(DeceptionGame, children)
    ensures |t| == |children|
  {
    seq(|children|, k requires 0 <= k < |children| =>
      children[k].(traits := Deceiver(Clip(shifts[k] + children[k].traits.deceptionProbability, 0.0, 1.0))))
  }

  /** mutate_agents of each variant, applied to the children. */
  function MutatedChildren(variant: Variant, children: seq<Agent>, m: MutationDraws): (t: seq<Agent>)
    requires AllHaveLayout(variant, children) && MutationFits(variant, m, |children|)
    ensures |t| == |children|
  {
    match variant
    case DeceptionGame => ShiftedProbabilities(children, m.shifts)
    case StrategyGame => Experiment1.MutatedStrategies(children, m.strategyIndices, m.strategies)
    case NoisyStrategyGame =>
      var t := Experiment1.MutatedStrategies(children, m.strategyIndices, m.strategies);
      assert Experiment3.AllNoisy(t) by {
        forall k | 0 <= k < |t| ensures t[k].traits.NoisyStrategist? {
          Experiment1.MutatedStrategiesAt(children, m.strategyIndices, m.strategies, k);
        }
      }
      Experiment3.MutatedNoises(t, m.noiseIndices, m.noiseShifts)
  }

  /** A mutated child keeps its value and reputation and stays well formed; in the base game
      its deception probability moves by at most the mutation rate; in the experiments a
      child no strategy index names keeps its strategy, and in experiment_3 a child no
      noise index names keeps its noise as well. */
  lemma MutatedChildAt(variant: Variant, rate: real, children: seq<Agent>, m: MutationDraws, k: nat)
    requires AllWellFormed(variant, children) && MutationInRange(variant, m, |children|, rate)
    requires k < |children|
    ensures var t := MutatedChildren(variant, children, m);
      && WellFormed(variant, t[k])
      && t[k].value == children[k].value && t[k].reputation == children[k].reputation
      && (variant == DeceptionGame ==>
            -rate <= t[k].traits.deceptionProbability - children[k].traits.deceptionProbability <= rate)
      && (variant != DeceptionGame && (forall j :: 0 <= j < |m.strategyIndices| ==> m.strategyIndices[j] != k) ==>
            t[k].traits.strategy == children[k].traits.strategy)
      && (variant == NoisyStrategyGame && (forall j :: 0 <= j < |m.strategyIndices| ==> m.strategyIndices[j] != k)
            && (forall j :: 0 <= j < |m.noiseIndices| ==> m.noiseIndices[j] != k) ==>
            t[k] == children[k])
  {
    var t := MutatedChildren(variant, children, m);
    match variant
    case DeceptionGame =>
      assert t[k] == children[k].(traits := Deceiver(Clip(m.shifts[k] + children[k].traits.deceptionProbability, 0.0, 1.0)));
    case StrategyGame =>
      Experiment1.MutatedStrategiesAt(children, m.strategyIndices, m.strategies, k);
    case NoisyStrategyGame =>
      var u := Experiment1.MutatedStrategies(children, m.strategyIndices, m.strategies);
      forall l | 0 <= l < |u| ensures u[l].traits.NoisyStrategist? {
        Experiment1.MutatedStrategiesAt(children, m.strategyIndices, m.strategies, l);
      }
      Experiment1.MutatedStrategiesAt(children, m.strategyIndices, m.strategies, k);
      Experiment3.MutatedNoisesAt(u, m.noiseIndices, m.noiseShifts, k);
      if forall j :: 0 <= j < |m.noiseIndices| ==> m.noiseIndices[j] != k {
        Experiment3.MutatedNoisesUntouched(u, m.noiseIndices, m.noiseShifts, k);
      }
  }

  /** Ranking keeps the population well formed: the ranking holds the same agents. */
  lemma RankingWellFormed(variant: Variant, ranked: seq<Agent>, s: seq<Agent>)
    requires IsRanking(ranked, s) && AllWellFormed(variant, s)
    ensures |ranked| == |s| && AllWellFormed(variant, ranked)
  {
    assert |ranked| == |multiset(ranked)| == |multiset(s)| == |s|;
    forall i | 0 <= i < |ranked| ensures WellFormed(variant, ranked[i]) {
      assert ranked[i] in multiset(s);
    }
  }

  /** `ranked` ranks the well-formed population `s`, fittest first; it is then itself a
      well-formed population of the same size. */
  predicate RankingOf(variant: Variant, ranked: seq<Agent>, s: seq<Agent>)
    ensures RankingOf(variant, ranked, s) ==>
      |ranked| == |s| && Descending(ranked) && AllWellFormed(variant, ranked)
  {
    if IsRanking(ranked, s) && AllWellFormed(variant, s) then
      RankingWellFormed(variant, ranked, s);
      true
    else
      false
  }

  /** Every child is a copy of one of the parents, and so well formed. */
  lemma OffspringWellFormed(variant: Variant, settings: Settings, ranked: seq<Agent>)
    requires settings.Valid() && |ranked| == settings.numberOfAgents && Descending(ranked)
    requires SharesDefined(ranked, settings.influenceOfFitness) && AllWellFormed(variant, ranked)
    ensures var born := Offspring(ranked, settings.numberOfParents, settings.influenceOfFitness, settings.Children());
      && AllWellFormed(variant, born)
      && forall k :: 0 <= k < |born| ==> exists j :: 0 <= j < settings.numberOfParents && j < |ranked| && born[k] == ranked[j]
  {
    var parents := Parents(ranked, settings.numberOfParents);
    var born := Offspring(ranked, settings.numberOfParents, settings.influenceOfFitness, settings.Children());
    OffspringFromParents(ranked, settings.numberOfParents, settings.influenceOfFitness, settings.Children());
    forall k | 0 <= k < |born|
      ensures WellFormed(variant, born[k])
      ensures exists j :: 0 <= j < settings.numberOfParents && j < |ranked| && born[k] == ranked[j]
    {
      assert born[k] in parents;
      var j :| 0 <= j < |parents| && parents[j] == born[k];
      assert ranked[j] == born[k];
    }
  }

  /** The agents select_agents leaves behind (simulation_numpy.py:79-121), given a ranking of
      the population fittest first: the top `number_of_surviving_agents`, then the offspring
      mutated by the variant's rule, everybody reset. */
  function Selected(variant: Variant, settings: Settings, ranked: seq<Agent>, m: MutationDraws): (next: seq<Agent>)
    requires settings.Valid() && |ranked| == settings.numberOfAgents && Descending(ranked)
    requires SharesDefined(ranked, settings.influenceOfFitness) && AllWellFormed(variant, ranked)
    requires MutationFits(variant, m, settings.Children())
    ensures |next| == |ranked|
  {
    ResetAll(ranked[..settings.numberOfSurvivingAgents] + MutatedOffspring(variant, settings, ranked, m))
  }

  /** The offspring of a ranking, mutated by the variant's rule. */
  function MutatedOffspring(variant: Variant, settings: Settings, ranked: seq<Agent>, m: MutationDraws): (children: seq<Agent>)
    requires settings.Valid() && |ranked| == settings.numberOfAgents && Descending(ranked)
    requires SharesDefined(ranked, settings.influenceOfFitness) && AllWellFormed(variant, ranked)
    requires MutationFits(variant, m, settings.Children())
    ensures |children| == settings.Children()
  {
    OffspringWellFormed(variant, settings, ranked);
    MutatedChildren(variant, Offspring(ranked, settings.numberOfParents, settings.influenceOfFitness, settings.Children()), m)
  }

  /** Position `k` after selection: a reset survivor below `number_of_surviving_agents`, above
      it the reset, mutated child born at that position. */
  lemma SelectedAt(variant: Variant, settings: Settings, ranked: seq<Agent>, m: MutationDraws, k: nat)
    requires settings.Valid() && |ranked| == settings.numberOfAgents && Descending(ranked)
    requires SharesDefined(ranked, settings.influenceOfFitness) && AllWellFormed(variant, ranked)
    requires MutationFits(variant, m, settings.Children())
    requires k < settings.numberOfAgents
    ensures var next := Selected(variant, settings, ranked, m);
      && (k < settings.numberOfSurvivingAgents ==> next[k] == Reset(ranked[k]))
      && (settings.numberOfSurvivingAgents <= k ==>
            next[k] == Reset(MutatedOffspring(variant, settings, ranked, m)[k - settings.numberOfSurvivingAgents]))
  {
    var S := settings.numberOfSurvivingAgents;
    var all := ranked[..S] + MutatedOffspring(variant, settings, ranked, m);
    assert Selected(variant, settings, ranked, m)[k] == Reset(all[k]);
  }

  /** After selection every agent is well formed with value 0 and reputation 0, and the
      survivors are the top `number_of_surviving_agents` of the ranking in ranking order. */
  lemma SelectedWellFormed(variant: Variant, settings: Settings, ranked: seq<Agent>, m: MutationDraws)
    requires settings.Valid() && |ranked| == settings.numberOfAgents && Descending(ranked)
    requires SharesDefined(ranked, settings.influenceOfFitness) && AllWellFormed(variant, ranked)
    requires MutationInRange(variant, m, settings.Children(), settings.mutationRate)
    ensures var next := Selected(variant, settings, ranked, m);
      && AllWellFormed(variant, next)
      && (forall i :: 0 <= i < |next| ==> next[i].value == 0.0 && next[i].reputation == 0)
      && (forall i :: 0 <= i < settings.numberOfSurvivingAgents ==> next[i] == Reset(ranked[i]))
  {
    OffspringWellFormed(variant, settings, ranked);
    var S := settings.numberOfSurvivingAgents;
    var born := Offspring(ranked, settings.numberOfParents, settings.influenceOfFitness, settings.Children());
    var next := Selected(variant, settings, ranked, m);
    forall i | 0 <= i < |next|
      ensures WellFormed(variant, next[i]) && next[i].value == 0.0 && next[i].reputation == 0
    {
      SelectedAt(variant, settings, ranked, m, i);
      if S <= i {
        MutatedChildAt(variant, settings.mutationRate, born, m, i - S);
      }
    }
    forall i | 0 <= i < S ensures next[i] == Reset(ranked[i]) {
      SelectedAt(variant, settings, ranked, m, i);
    }
  }

  /** Every child descends from one of the first `number_of_parents` agents of the ranking:
      in the base game its deception probability lies within the mutation rate of that
      parent's; in the experiments a child no mutation index names is that parent, reset. */
  lemma SelectedChildren(variant: Variant, settings: Settings, ranked: seq<Agent>, m: MutationDraws, i: nat)
    requires settings.Valid() && |ranked| == settings.numberOfAgents && Descending(ranked)
    requires SharesDefined(ranked, settings.influenceOfFitness) && AllWellFormed(variant, ranked)
    requires MutationInRange(variant, m, settings.Children(), settings.mutationRate)
    requires settings.numberOfSurvivingAgents <= i < settings.numberOfAgents
    ensures var next := Selected(variant, settings, ranked, m);
      var k := i - settings.numberOfSurvivingAgents;
      exists j :: (
        && 0 <= j < settings.numberOfParents && j < |ranked|
        && (variant == DeceptionGame ==>
              -settings.mutationRate <= next[i].traits.deceptionProbability - ranked[j].traits.deceptionProbability <= settings.mutationRate)
        && (variant != DeceptionGame
              && (forall l :: 0 <= l < |m.strategyIndices| ==> m.strategyIndices[l] != k)
              && (variant == NoisyStrategyGame ==> forall l :: 0 <= l < |m.noiseIndices| ==> m.noiseIndices[l] != k) ==>
              next[i] == Reset(ranked[j])))
  {
    OffspringWellFormed(variant, settings, ranked);
    var S := settings.numberOfSurvivingAgents;
    var k := i - S;
    var born := Offspring(ranked, settings.numberOfParents, settings.influenceOfFitness, settings.Children());
    var next := Selected(variant, settings, ranked, m);
    SelectedAt(variant, settings, ranked, m, i);
    MutatedChildAt(variant, settings.mutationRate, born, m, k);
    var j :| 0 <= j < settings.numberOfParents && j < |ranked| && born[k] == ranked[j];
    if variant == StrategyGame && forall l :: 0 <= l < |m.strategyIndices| ==> m.strategyIndices[l] != k {
      Experiment1.MutatedStrategiesAt(born, m.strategyIndices, m.strategies, k);
    }
  }

  /** The parents, shares and counts of select_agents (simulation_numpy.py:93-118), on
      whole columns: the ranking's first `number_of_parents` agents, each repeated
      `ceil(m * share)` times with `m = number_of_children / sum(shares)`, truncated to
      the number of children. */
  method Breed(ranked: seq<Agent>, numberOfParents: nat, influence: real, children: nat) returns (born: seq<Agent>)
    requires |ranked| >= 1 && Descending(ranked) && numberOfParents >= 1
    requires 0.0 <= influence <= 1.0 && SharesDefined(ranked, influence)
    ensures born == Offspring(ranked, numberOfParents, influence, children)
  {
    var parents := Parents(ranked, numberOfParents);
    var minFitness, maxFitness := ranked[|ranked| - 1].value, ranked[0].value;
    var shares := Shares(parents, minFitness, maxFitness, influence);
    OffspringCoverage(ranked, numberOfParents, influence, children);
    var m := children as real / Sum(shares);
    var counts := ChildCounts(m, shares);
    born := Take(Repeat(parents, counts), children);
  }

  // ---------------------------------------------------------------- the engine

  class Simulation {
    const variant: Variant
    const settings: Settings
    /** `self.agents`, the structured array of the population. */
    const agents: array<Agent>
    /** `self.log`: row `g` holds the population as it stood at the end of generation `g`. */
    const log: array<seq<Agent>>
    var currentSimstep: nat
    var currentGeneration: nat
    var lastRelation: Relation
    var lastPair: Pair

    /** The engine's invariant: a well-formed population of the configured size, a log of
        `number_of_generations + 1` rows of that size, and counters in range. */
    ghost predicate Valid()
      reads this, agents, log
    {
      && settings.Valid() && settings.numberOfGenerations >= 1
      && agents.Length == settings.numberOfAgents
      && log.Length == settings.numberOfGenerations + 1
      && (forall g :: 0 <= g < log.Length ==> |log[g]| == settings.numberOfAgents)
      && AllWellFormed(variant, agents[..])
      && currentSimstep <= settings.stepsPerGeneration
      && 1 <= currentGeneration <= settings.numberOfGenerations
    }

    /** __init__ (simulation_numpy.py:35-47) with init_agents of the variant; the strategies
        are the draws of `np.random.randint(-5, 6, size=len(self.agents))`. */
    constructor (variant: Variant, settings: Settings, strategies: seq<int>)
      requires settings.Valid() && settings.numberOfGenerations >= 1
      requires variant != DeceptionGame ==> |strategies| == settings.numberOfAgents && StrategiesInRange(strategies)
      ensures Valid() && fresh(agents) && fresh(log)
      ensures this.variant == variant && this.settings == settings
      ensures agents[..] == InitialAgents(variant, settings.numberOfAgents, strategies)
      ensures currentSimstep == 0 && currentGeneration == 1
      ensures lastRelation == NoRelation && lastPair == NoPair
      ensures log[1] == agents[..]
      ensures forall g :: 0 <= g < log.Length && g != 1 ==> log[g] == ZeroRow(variant, settings.numberOfAgents)
    {
      this.variant := variant;
      this.settings := settings;
      var initial := InitialAgents(variant, settings.numberOfAgents, strategies);
      var population := new Agent[settings.numberOfAgents](i requires 0 <= i < |initial| => initial[i]);
      var zeros := ZeroRow(variant, settings.numberOfAgents);
      var rows := new seq<Agent>[settings.numberOfGenerations + 1](_ => zeros);
      assert population[..] == initial;
      rows[1] := population[..];
      agents := population;
      log := rows;
      currentSimstep := 0;
      currentGeneration := 1;
      lastRelation := NoRelation;
      lastPair := NoPair;
    }

    /** The state the step functions read and write. */
    function State(): Round
      reads this, agents
    {
      Round(agents[..], lastRelation, lastPair)
    }

    /** cooperation_step (simulation_numpy.py:135-150, experiment_1.py:78-96). The names `a`
        and `b` that _get_two_agents (simulation_numpy.py:167-170) hands over are both views
        of the record at the pair's first index, so every write goes to that record and every
        read sees the writes before it. */
    method CooperationStep(pair: Pair)
      requires Valid() && PairInRange(pair, agents.Length)
      modifies this, agents
      ensures State() == CooperationRound(variant, old(agents[..]), pair, pair.first, pair.first)
      ensures currentSimstep == old(currentSimstep) && currentGeneration == old(currentGeneration)
      ensures Valid()
    {
      ghost var s := agents[..];
      lastPair := pair;
      var i, j := pair.first, pair.first;
      if variant == DeceptionGame {
        if CooperationPolicy(agents[i], agents[j]) {
          agents[i] := agents[i].(value := agents[i].value - 0.5);
          agents[j] := agents[j].(value := agents[j].value + 1.0);
          agents[i] := agents[i].(reputation := Raise(agents[i].reputation));
          lastRelation := Cooperate;
        } else {
          agents[i] := agents[i].(reputation := Lower(agents[i].reputation));
          lastRelation := Defect;
        }
        assert agents[..] == Cooperation(s, i, j);
      } else {
        assert WellFormed(variant, agents[i]);
        if Experiment1.CooperationPolicy(agents[i], agents[j]) {
          agents[j] := agents[j].(value := agents[j].value + 1.0);
          agents[i] := agents[i].(reputation := Raise(agents[i].reputation));
          lastRelation := Cooperate;
        } else {
          agents[i] := agents[i].(value := agents[i].value + 0.1);
          agents[i] := agents[i].(reputation := Lower(agents[i].reputation));
          lastRelation := Defect;
        }
        assert agents[..] == Experiment1.Cooperation(s, i, j);
      }
    }

    /** deception_step (simulation_numpy.py:153-164), where again both names are views of
        the record at the drawn pair's first index. */
    method DeceptionStep(d: StepDraws)
      requires Valid() && variant == DeceptionGame && DrawsInRange(d, agents.Length)
      modifies this, agents
      ensures State() == DeceptionRound(settings, old(State()), d, d.deception.first, d.deception.first)
      ensures currentSimstep == old(currentSimstep) && currentGeneration == old(currentGeneration)
      ensures Valid()
    {
      if d.exchange < settings.probabilityOfAReputationExchange {
        return;
      }
      ghost var s := agents[..];
      lastPair := d.deception;
      var i, j := d.deception.first, d.deception.first;
      if ReputationPolicy(agents[i], d.deceptionDraw) {
        var repercussion := d.repercussion < settings.probabilityOfRepercussion;
        agents[j] := agents[j].(reputation := Lower(agents[j].reputation));
        if repercussion {
          agents[i] := agents[i].(reputation := Lower(agents[i].reputation));
          lastRelation := Deception;
        }
        assert agents[..] == Badmouth(s, i, j, true, repercussion);
      }
    }

    /** The interaction branch of step (simulation_numpy.py:56-60, experiment_1.py:43-46). */
    method Interact(d: StepDraws)
      requires Valid() && DrawsInRange(d, agents.Length) && currentSimstep < settings.stepsPerGeneration
      modifies this, agents
      ensures Valid()
      ensures currentSimstep == old(currentSimstep) + 1 && currentGeneration == old(currentGeneration)
      ensures State() == AliasedInteractionRound(variant, settings, old(State()), d)
    {
      CooperationStep(d.cooperation);
      if variant == DeceptionGame {
        DeceptionStep(d);
      }
      currentSimstep := currentSimstep + 1;
    }

    /** mutate_agents of the base game (simulation_numpy.py:124-127) on the children, the
        view `self.agents[from:]`. */
    method MutateProbabilities(from: nat, shifts: seq<real>)
      requires from <= agents.Length && |shifts| == agents.Length - from
      requires AllHaveLayout(DeceptionGame, agents[from..])
      modifies agents
      ensures agents[..] == old(agents[..from]) + ShiftedProbabilities(old(agents[from..]), shifts)
    {
      ghost var children := agents[from..];
      forall i | from <= i < agents.Length {
        agents[i] := agents[i].(traits := Deceiver(Clip(shifts[i - from] + agents[i].traits.deceptionProbability, 0.0, 1.0)));
      }
      assert agents[..] == old(agents[..from]) + ShiftedProbabilities(children, shifts);
    }

    /** The strategy mutation of experiment_1.py:62-69 on the children: the fancy assignment
        `strategy[idx] = vals` computes the new column, which replaces the old one. */
    method MutateStrategies(from: nat, idx: seq<nat>, vals: seq<int>)
      requires from <= agents.Length && |idx| == |vals| && IndicesBelow(idx, agents.Length - from)
      requires Experiment1.AllHaveStrategies(agents[from..])
      modifies agents
      ensures agents[..] == old(agents[..from]) + Experiment1.MutatedStrategies(old(agents[from..]), idx, vals)
    {
      ghost var children := agents[from..];
      var column := FancyAssign(Experiment1.Strategies(agents[from..]), idx, vals);
      forall i | from <= i < agents.Length {
        agents[i] := agents[i].(traits := agents[i].traits.(strategy := column[i - from]));
      }
      assert agents[..] == old(agents[..from]) + Experiment1.MutatedStrategies(children, idx, vals);
    }

    /** The noise mutation of experiment_3.py:47-51 on the children: the buffered add
        `noise[idx] += shifts` writes the new column, then `np.clip` clips it in place. */
    method MutateNoises(from: nat, idx: seq<nat>, shifts: seq<real>)
      requires from <= agents.Length && |idx| == |shifts| && IndicesBelow(idx, agents.Length - from)
      requires Experiment3.AllNoisy(agents[from..])
      modifies agents
      ensures agents[..] == old(agents[..from]) + Experiment3.MutatedNoises(old(agents[from..]), idx, shifts)
    {
      ghost var children := agents[from..];
      var column := FancyAdd(Experiment3.Noises(agents[from..]), idx, shifts);
      forall i | from <= i < agents.Length {
        agents[i] := agents[i].(traits := agents[i].traits.(noise := column[i - from]));
      }
      forall i | from <= i < agents.Length {
        agents[i] := agents[i].(traits := agents[i].traits.(noise := Clip(agents[i].traits.noise, Experiment3.MinNoise, Experiment3.MaxNoise)));
      }
      assert agents[..] == old(agents[..from]) + Experiment3.MutatedNoises(children, idx, shifts);
    }

    /** mutate_agents of the variant on the view `self.agents[from:]`. */
    method MutateAgents(from: nat, m: MutationDraws)
      requires from <= agents.Length && AllHaveLayout(variant, agents[from..])
      requires MutationFits(variant, m, agents.Length - from)
      modifies agents
      ensures agents[..] == old(agents[..from]) + MutatedChildren(variant, old(agents[from..]), m)
    {
      ghost var children := agents[from..];
      match variant
      case DeceptionGame =>
        MutateProbabilities(from, m.shifts);
      case StrategyGame =>
        MutateStrategies(from, m.strategyIndices, m.strategies);
      case NoisyStrategyGame =>
        MutateStrategies(from, m.strategyIndices, m.strategies);
        ghost var t := Experiment1.MutatedStrategies(children, m.strategyIndices, m.strategies);
        assert agents[from..] == t;
        forall k | 0 <= k < |t| ensures t[k].traits.NoisyStrategist? {
          Experiment1.MutatedStrategiesAt(children, m.strategyIndices, m.strategies, k);
        }
        MutateNoises(from, m.noiseIndices, m.noiseShifts);
    }

    /** reset_agents (simulation_numpy.py:129-132). */
    method ResetAgents()
      modifies agents
      ensures agents[..] == ResetAll(old(agents[..]))
    {
      forall i | 0 <= i < agents.Length {
        agents[i] := Reset(agents[i]);
      }
    }

    /** select_agents (simulation_numpy.py:79-121) after the sort, with `ranked` the sorted
        copy `agents`: survivors and children are written, the children mutate and
        everybody is reset. */
    method SelectAgents(ranked: seq<Agent>, m: MutationDraws)
      requires Valid() && RankingOf(variant, ranked, agents[..])
      requires SharesDefined(ranked, settings.influenceOfFitness)
      requires MutationInRange(variant, m, settings.Children(), settings.mutationRate)
      modifies agents
      ensures agents[..] == Selected(variant, settings, ranked, m)
      ensures Valid()
    {
      SelectedWellFormed(variant, settings, ranked, m);
      OffspringWellFormed(variant, settings, ranked);
      var S := settings.numberOfSurvivingAgents;
      ghost var born := Offspring(ranked, settings.numberOfParents, settings.influenceOfFitness, settings.Children());
      CarryOver(ranked);
      assert agents[S..] == born;
      MutateAgents(S, m);
      ResetAgents();
    }

    /** select_agents' writes into the population (simulation_numpy.py:110-118): the
        survivors `agents[:number_of_surviving_agents]` are copied over and the rest of the
        population becomes the offspring. */
    method CarryOver(ranked: seq<Agent>)
      requires settings.Valid() && agents.Length == settings.numberOfAgents
      requires |ranked| == settings.numberOfAgents && Descending(ranked)
      requires SharesDefined(ranked, settings.influenceOfFitness)
      modifies agents
      ensures agents[..] == ranked[..settings.numberOfSurvivingAgents] +
        Offspring(ranked, settings.numberOfParents, settings.influenceOfFitness, settings.Children())
    {
      var S := settings.numberOfSurvivingAgents;
      forall i | 0 <= i < S {
        agents[i] := ranked[i];
      }
      var born := Breed(ranked, settings.numberOfParents, settings.influenceOfFitness, settings.numberOfAgents - S);
      forall i | S <= i < agents.Length {
        agents[i] := born[i - S];
      }
      assert agents[..] == ranked[..S] + born;
    }
    /** The generation boundary of step (simulation_numpy.py:62-67): log the population in
        the row of the ending generation, select, and start the next generation. The last
        relation is left standing. */
    method Rollover(ranked: seq<Agent>, m: MutationDraws)
      requires Valid() && currentSimstep == settings.stepsPerGeneration
      requires currentGeneration < settings.numberOfGenerations
      requires RankingOf(variant, ranked, agents[..]) && SharesDefined(ranked, settings.influenceOfFitness)
      requires MutationInRange(variant, m, settings.Children(), settings.mutationRate)
      modifies this, agents, log
      ensures Valid()
      ensures currentSimstep == 0 && currentGeneration == old(currentGeneration) + 1
      ensures agents[..] == Selected(variant, settings, ranked, m)
      ensures log[..] == old(log[..])[old(currentGeneration) := old(agents[..])]
      ensures lastRelation == old(lastRelation) && lastPair == old(lastPair)
    {
      log[currentGeneration] := agents[..];
      SelectAgents(ranked, m);
      currentGeneration, currentSimstep := currentGeneration + 1, 0;
    }

    /** step (simulation_numpy.py:54-68, experiment_1.py:41-54): an interaction step while the
        generation's budget lasts; at the budget a generation boundary unless this was the
        last generation; after that nothing changes and the answer is false. */
    method Step(d: StepDraws, ranked: seq<Agent>, m: MutationDraws) returns (more: bool)
      requires Valid() && DrawsInRange(d, agents.Length)
      requires currentSimstep == settings.stepsPerGeneration && currentGeneration < settings.numberOfGenerations ==>
        && RankingOf(variant, ranked, agents[..]) && SharesDefined(ranked, settings.influenceOfFitness)
        && MutationInRange(variant, m, settings.Children(), settings.mutationRate)
      modifies this, agents, log
      ensures Valid()
      ensures old(currentSimstep) < settings.stepsPerGeneration ==>
        && more
        && currentSimstep == old(currentSimstep) + 1 && currentGeneration == old(currentGeneration)
        && State() == AliasedInteractionRound(variant, settings, old(State()), d)
        && log[..] == old(log[..])
      ensures old(currentSimstep) == settings.stepsPerGeneration && old(currentGeneration) < settings.numberOfGenerations ==>
        && more
        && currentSimstep == 0 && currentGeneration == old(currentGeneration) + 1
        && agents[..] == Selected(variant, settings, ranked, m)
        && log[..] == old(log[..])[old(currentGeneration) := old(agents[..])]
        && lastRelation == old(lastRelation) && lastPair == old(lastPair)
      ensures old(currentSimstep) == settings.stepsPerGeneration && old(currentGeneration) >= settings.numberOfGenerations ==>
        && !more && unchanged(this) && agents[..] == old(agents[..]) && log[..] == old(log[..])
    {
      if currentSimstep < settings.stepsPerGeneration {
        Interact(d);
        return true;
      } else if currentGeneration < settings.numberOfGenerations {
        Rollover(ranked, m);
        return true;
      }
      return false;
    }

    /** calculate_generation (simulation_numpy.py:71-76): steps until the generation changes
        or the last generation's budget is spent; the interaction steps consume `draws` in
        order and `ranked` ranks the population the generation ends with. The guard
        `this_generation <= number_of_generations` always holds, since the generation never
        passes the last one. When the shares of the coming boundary sum to zero,
        select_agents would divide by zero; the method then stops before that boundary and
        answers `raised`. */
    method CalculateGeneration(draws: seq<StepDraws>, ranked: seq<Agent>, m: MutationDraws) returns (raised: bool)
      requires Valid() && |draws| == settings.stepsPerGeneration - currentSimstep
      requires forall k :: 0 <= k < |draws| ==> DrawsInRange(draws[k], agents.Length)
      requires currentGeneration < settings.numberOfGenerations ==>
        && RankingOf(variant, ranked, Play(variant, settings, State(), draws).agents)
        && MutationInRange(variant, m, settings.Children(), settings.mutationRate)
      modifies this, agents, log
      ensures Valid()
      ensures var played := Play(variant, settings, old(State()), draws);
        if raised then
          && old(currentGeneration) < settings.numberOfGenerations
          && !SharesDefined(ranked, settings.influenceOfFitness)
          && currentGeneration == old(currentGeneration) && currentSimstep == settings.stepsPerGeneration
          && State() == played && log[..] == old(log[..])
        else if old(currentGeneration) < settings.numberOfGenerations then
          && SharesDefined(ranked, settings.influenceOfFitness)
          && currentGeneration == old(currentGeneration) + 1 && currentSimstep == 0
          && agents[..] == Selected(variant, settings, ranked, m)
          && log[..] == old(log[..])[old(currentGeneration) := played.agents]
        else
          && currentGeneration == old(currentGeneration) && currentSimstep == settings.stepsPerGeneration
          && State() == played && log[..] == old(log[..])
    {
      raised := false;
      // `while current_generation == this_generation and step()`: every step before the
      // budget is spent interacts and answers true, so the loop first plays out the budget ...
      PlayOut(draws);
      // ... and then makes the one step at the budget, which either starts the next
      // generation or answers false and ends the loop.
      if currentGeneration < settings.numberOfGenerations && !SharesDefined(ranked, settings.influenceOfFitness) {
        raised := true;
        return;
      }
      var more := Step(NoDraws, ranked, m);
    }

    /** The steps of calculate_generation before the budget of the generation is spent: each
        of them takes the interaction branch of step() and answers true. */
    method PlayOut(draws: seq<StepDraws>)
      requires Valid() && |draws| == settings.stepsPerGeneration - currentSimstep
      requires forall k :: 0 <= k < |draws| ==> DrawsInRange(draws[k], agents.Length)
      modifies this, agents
      ensures Valid()
      ensures currentGeneration == old(currentGeneration) && currentSimstep == settings.stepsPerGeneration
      ensures State() == Play(variant, settings, old(State()), draws)
    {
      ghost var start := State();
      ghost var s0 := currentSimstep;
      var k := 0;
      while currentSimstep < settings.stepsPerGeneration
        invariant Valid() && currentGeneration == old(currentGeneration)
        invariant k == currentSimstep - s0 && k <= |draws|
        invariant State() == Play(variant, settings, start, draws[..k])
        decreases settings.stepsPerGeneration - currentSimstep
      {
        PlaySnoc(variant, settings, start, draws, k);
        Interact(draws[k]);
        k := k + 1;
      }
      assert draws[..k] == draws;
    }
  }
}
