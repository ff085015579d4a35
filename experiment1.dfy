/** The rules of experiment_1.py: agents carry an integer strategy instead of a deception
    probability, cooperate when their strategy does not exceed the partner's reputation, and
    mutate by having randomly chosen children draw a fresh strategy. */
module Experiment1 {
  import opened Agents
  import opened NumpyIndexing
  import Interaction

  /** `np.random.randint(-5, 6)`: strategies at initialisation lie in [-5, 5]. */
  const MinStrategy: int := -5
  const MaxStrategy: int := 5
  /** `np.random.randint(-4, 6)`: a mutated strategy lies in [-4, 5]. */
  const MinMutatedStrategy: int := -4

  predicate HasStrategy(a: Agent) {
    a.traits.Strategist? || a.traits.NoisyStrategist?
  }

  predicate StrategyInRange(k: int) {
    MinStrategy <= k <= MaxStrategy
  }

  /** cooperation_policy (experiment_1.py:28-30): cooperate iff the strategy does not exceed
      the partner's reputation. */
  predicate CooperationPolicy(agent: Agent, other: Agent)
    requires HasStrategy(agent)
  {
    agent.traits.strategy <= other.reputation
  }

  /** The lowest strategy always cooperates with an agent of reputation in range, the
      highest only with a partner of the highest reputation. */
  lemma CooperationPolicyExtremes(agent: Agent, other: Agent)
    requires HasStrategy(agent) && ReputationInRange(other.reputation)
    ensures agent.traits.strategy <= MinStrategy ==> CooperationPolicy(agent, other)
    ensures agent.traits.strategy == MaxStrategy ==> (CooperationPolicy(agent, other) <==> other.reputation == MaxReputation)
  {
  }

  /** cooperation_step (experiment_1.py:78-96) on the positions `a` and `b`: on cooperation
      `b` gains 1.0 and `a`'s reputation rises, clamped at 5, at no cost to `a`; on
      defection `a` gains 0.1 and its reputation falls, clamped at -5. */
  function Cooperation(s: seq<Agent>, a: nat, b: nat): (t: seq<Agent>)
    requires a < |s| && b < |s| && HasStrategy(s[a])
    ensures |t| == |s|
    ensures forall i :: 0 <= i < |s| ==> t[i].traits == s[i].traits
    ensures forall i :: 0 <= i < |s| && i != a && i != b ==> t[i] == s[i]
  {
    if CooperationPolicy(s[a], s[b]) then
      var s1 := s[b := s[b].(value := s[b].value + 1.0)];
      s1[a := s1[a].(reputation := Raise(s1[a].reputation))]
    else
      s[a := s[a].(value := s[a].value + 0.1, reputation := Lower(s[a].reputation))]
  }

  /** With two different agents: who gains and whose reputation moves. */
  lemma CooperationOfTwo(s: seq<Agent>, a: nat, b: nat)
    requires a < |s| && b < |s| && a != b && HasStrategy(s[a])
    ensures var t := Cooperation(s, a, b);
      if s[a].traits.strategy <= s[b].reputation then
        && t[a] == s[a].(reputation := Raise(s[a].reputation))
        && t[b] == s[b].(value := s[b].value + 1.0)
      else
        && t[a] == s[a].(value := s[a].value + 0.1, reputation := Lower(s[a].reputation))
        && t[b] == s[b]
  {
  }

  /** When both names denote one agent, it compares its strategy with its own reputation
      and receives the payoff itself. */
  lemma CooperationOfOne(s: seq<Agent>, a: nat)
    requires a < |s| && HasStrategy(s[a])
    ensures var t := Cooperation(s, a, a);
      if s[a].traits.strategy <= s[a].reputation then
        t[a] == s[a].(value := s[a].value + 1.0, reputation := Raise(s[a].reputation))
      else
        t[a] == s[a].(value := s[a].value + 0.1, reputation := Lower(s[a].reputation))
  {
  }

  lemma CooperationKeepsRange(s: seq<Agent>, a: nat, b: nat)
    requires a < |s| && b < |s| && HasStrategy(s[a])
    requires forall i :: 0 <= i < |s| ==> ReputationInRange(s[i].reputation)
    ensures var t := Cooperation(s, a, b);
      forall i :: 0 <= i < |t| ==> ReputationInRange(t[i].reputation)
  {
  }

  /** A cooperation adds 1.0 to the total payoff and a defection 0.1, whether the two
      positions differ or not: the total never falls, and grows by at most 1.0. */
  lemma CooperationTotalValue(s: seq<Agent>, a: nat, b: nat)
    requires a < |s| && b < |s| && HasStrategy(s[a])
    ensures Interaction.TotalValue(Cooperation(s, a, b)) ==
            Interaction.TotalValue(s) + (if CooperationPolicy(s[a], s[b]) then 1.0 else 0.1)
  {
    if CooperationPolicy(s[a], s[b]) {
      var s1 := s[b := s[b].(value := s[b].value + 1.0)];
      Interaction.TotalValueUpdate(s, b, s1[b]);
      Interaction.TotalValueUpdate(s1, a, s1[a].(reputation := Raise(s1[a].reputation)));
    } else {
      Interaction.TotalValueUpdate(s, a, s[a].(value := s[a].value + 0.1, reputation := Lower(s[a].reputation)));
    }
  }

  // ---------------------------------------------------------------- the strategy column

  predicate AllHaveStrategies(s: seq<Agent>) {
    forall i :: 0 <= i < |s| ==> HasStrategy(s[i])
  }

  /** The column `agents["strategy"]`. */
  function Strategies(s: seq<Agent>): (st: seq<int>)
    requires AllHaveStrategies(s)
    ensures |st| == |s| && forall i :: 0 <= i < |s| ==> st[i] == s[i].traits.strategy
  {
    seq(|s|, i requires 0 <= i < |s| => s[i].traits.strategy)
  }

  /** The agents with their strategy column replaced; every other field is kept. */
  function WithStrategies(s: seq<Agent>, st: seq<int>): (t: seq<Agent>)
    requires AllHaveStrategies(s) && |st| == |s|
    ensures |t| == |s| && AllHaveStrategies(t) && Strategies(t) == st
  {
    var t := seq(|s|, i requires 0 <= i < |s| => s[i].(traits := s[i].traits.(strategy := st[i])));
    assert Strategies(t) == st;
    t
  }

  /** mutate_agents (experiment_1.py:59-69) on the children: `number_of_mutations` random
      positions receive a fresh strategy; where a position repeats, the model lets the last
      draw win, an order numpy does not promise. */
  function MutatedStrategies(children: seq<Agent>, idx: seq<nat>, vals: seq<int>): (t: seq<Agent>)
    requires AllHaveStrategies(children) && |idx| == |vals| && IndicesBelow(idx, |children|)
    ensures |t| == |children|
  {
    WithStrategies(children, FancyAssign(Strategies(children), idx, vals))
  }

  /** Mutation touches only the strategy: value, reputation, the kind of traits and (for
      experiment_3) the noise are kept, a child no index names is unchanged, and with every
      fresh strategy in [-4, 5] all strategies stay in [-5, 5]. */
  lemma MutatedStrategiesAt(children: seq<Agent>, idx: seq<nat>, vals: seq<int>, i: nat)
    requires AllHaveStrategies(children) && |idx| == |vals| && IndicesBelow(idx, |children|)
    requires i < |children|
    ensures var t := MutatedStrategies(children, idx, vals);
      && t[i].value == children[i].value && t[i].reputation == children[i].reputation
      && t[i].traits == children[i].traits.(strategy := t[i].traits.strategy)
      && ((forall j :: 0 <= j < |idx| ==> idx[j] != i) ==> t[i] == children[i])
      && (StrategyInRange(children[i].traits.strategy) &&
          (forall j :: 0 <= j < |vals| ==> MinMutatedStrategy <= vals[j] <= MaxStrategy) ==>
          StrategyInRange(t[i].traits.strategy))
  {
    var column := Strategies(children);
    var t := MutatedStrategies(children, idx, vals);
    assert t[i].traits.strategy == FancyAssign(column, idx, vals)[i];
    FancyAssignFrom(column, idx, vals, i);
    if forall j :: 0 <= j < |idx| ==> idx[j] != i {
      FancyAssignUntouched(column, idx, vals, i);
    }
  }

  /** A position drawn last receives exactly its fresh strategy (in the index order the
      model chooses for repeated positions). */
  lemma MutatedStrategyLast(children: seq<Agent>, idx: seq<nat>, vals: seq<int>, j: nat)
    requires AllHaveStrategies(children) && |idx| == |vals| && IndicesBelow(idx, |children|)
    requires j < |idx| && forall l :: j < l < |idx| ==> idx[l] != idx[j]
    ensures MutatedStrategies(children, idx, vals)[idx[j]].traits.strategy == vals[j]
  {
    FancyAssignLast(Strategies(children), idx, vals, j);
  }
}
