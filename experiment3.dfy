/** The rules of experiment_3.py: strategists that also carry a noise level. The noisy
    cooperation rule is defined there but the engine keeps experiment_1's rule; mutation
    redraws strategies as in experiment_1 and then shifts the noise of randomly chosen
    children, clipped to [0, 5]. */
module Experiment3 {
  import opened Agents
  import opened NumpyIndexing
  import Experiment1

  const MinNoise: real := 0.0
  const MaxNoise: real := 5.0

  /** cooperation_policy (experiment_3.py:26-28), given the `random()` draw: the strategy,
      perturbed by `(draw - 0.5) * noise`, must not exceed the partner's reputation. */
  predicate NoisyCooperationPolicy(agent: Agent, other: Agent, draw: real)
    requires agent.traits.NoisyStrategist?
  {
    agent.traits.strategy as real + (draw - 0.5) * agent.traits.noise <= other.reputation as real
  }

  /** Without noise, or at the draw 0.5, the noisy rule is experiment_1's rule; for draws in
      [0, 1) the perturbation stays within half the noise either way. */
  lemma NoisyPolicyReduces(agent: Agent, other: Agent, draw: real)
    requires agent.traits.NoisyStrategist?
    ensures agent.traits.noise == 0.0 || draw == 0.5 ==>
      (NoisyCooperationPolicy(agent, other, draw) <==> Experiment1.CooperationPolicy(agent, other))
    ensures 0.0 <= draw < 1.0 && agent.traits.noise >= 0.0 ==>
      -0.5 * agent.traits.noise <= (draw - 0.5) * agent.traits.noise <= 0.5 * agent.traits.noise
  {
    if 0.0 <= draw < 1.0 && agent.traits.noise >= 0.0 {
      assert (draw - 0.5) * agent.traits.noise <= 0.5 * agent.traits.noise;
      assert (draw - 0.5) * agent.traits.noise >= -0.5 * agent.traits.noise;
    }
  }

  /** The agent experiment_3 creates: no value, neutral reputation, the given strategy and the
      configured noise (experiment_3.py:32-36). */
  function NewAgent(strategy: int, noise: real): (a: Agent)
    ensures a.traits.NoisyStrategist? && a.value == 0.0 && a.reputation == 0
  {
    Agent(0.0, 0, NoisyStrategist(strategy, noise))
  }

  // ---------------------------------------------------------------- the noise column

  predicate AllNoisy(s: seq<Agent>) {
    forall i :: 0 <= i < |s| ==> s[i].traits.NoisyStrategist?
  }

  /** The column `agents["noise"]`. */
  function Noises(s: seq<Agent>): (n: seq<real>)
    requires AllNoisy(s)
    ensures |n| == |s| && forall i :: 0 <= i < |s| ==> n[i] == s[i].traits.noise
  {
    seq(|s|, i requires 0 <= i < |s| => s[i].traits.noise)
  }

  /** The agents with their noise column replaced by `np.clip(noise, 0, 5)`. */
  function WithClippedNoises(s: seq<Agent>, noise: seq<real>): (t: seq<Agent>)
    requires AllNoisy(s) && |noise| == |s|
    ensures |t| == |s| && AllNoisy(t)
    ensures forall i :: 0 <= i < |s| ==> t[i] == s[i].(traits := s[i].traits.(noise := Clip(noise[i], MinNoise, MaxNoise)))
  {
    seq(|s|, i requires 0 <= i < |s| => s[i].(traits := s[i].traits.(noise := Clip(noise[i], MinNoise, MaxNoise))))
  }

  /** The noise half of mutate_agents (experiment_3.py:47-51): `noise[idx] += deltas`, then
      every child's noise clipped to [0, 5]. */
  function MutatedNoises(children: seq<Agent>, idx: seq<nat>, deltas: seq<real>): (t: seq<Agent>)
    requires AllNoisy(children) && |idx| == |deltas| && IndicesBelow(idx, |children|)
    ensures |t| == |children|
  {
    WithClippedNoises(children, FancyAdd(Noises(children), idx, deltas))
  }

  /** After the noise mutation every child's noise lies in [0, 5]; value, reputation and
      strategy are kept; and before clipping a child's noise has moved by one draw of
      `random() - 0.5` at most, so by at least -0.5 and by less than 0.5. */
  lemma MutatedNoisesAt(children: seq<Agent>, idx: seq<nat>, deltas: seq<real>, i: nat)
    requires AllNoisy(children) && |idx| == |deltas| && IndicesBelow(idx, |children|)
    requires forall j :: 0 <= j < |deltas| ==> -0.5 <= deltas[j] < 0.5
    requires i < |children|
    ensures var t := MutatedNoises(children, idx, deltas);
      var shifted := FancyAdd(Noises(children), idx, deltas)[i];
      && MinNoise <= t[i].traits.noise <= MaxNoise
      && t[i].traits.noise == Clip(shifted, MinNoise, MaxNoise)
      && -0.5 <= shifted - children[i].traits.noise < 0.5
      && t[i].value == children[i].value && t[i].reputation == children[i].reputation
      && t[i].traits.strategy == children[i].traits.strategy
  {
    FancyAddAt(Noises(children), idx, deltas, i);
  }

  /** A child whose noise is already in [0, 5] and whom no index names keeps its noise. */
  lemma MutatedNoisesUntouched(children: seq<Agent>, idx: seq<nat>, deltas: seq<real>, i: nat)
    requires AllNoisy(children) && |idx| == |deltas| && IndicesBelow(idx, |children|)
    requires i < |children| && MinNoise <= children[i].traits.noise <= MaxNoise
    requires forall j :: 0 <= j < |idx| ==> idx[j] != i
    ensures MutatedNoises(children, idx, deltas)[i] == children[i]
  {
    FancyAssignUntouched(Noises(children), idx, Gathered(Noises(children), idx, deltas), i);
  }
}
