/** The interaction rules of the base game (simulation.py:19-26, 139-171; the numpy engine
    repeats them at simulation_numpy.py:17-24, 135-164). The decisions are pure predicates;
    the in-place updates a step makes to the two chosen agents are functions from the
    population before to the population after, applied at two positions `a` and `b` in the
    order the source writes them, so that `a == b` gives exactly what happens when both
    names refer to the same agent. */
module Interaction {
  import opened Agents

  /** The transient descriptor of the last interaction, read by the renderer:
      `None`, "cooperate", "defect" and "deception". */
  datatype Relation = NoRelation | Cooperate | Defect | Deception

  /** The two agent indices recorded for the renderer (None before the first step). */
  datatype Pair = NoPair | Pair(first: nat, second: nat)

  /** The population together with the renderer's last relation and last pair. */
  datatype Round = Round(agents: seq<Agent>, relation: Relation, pair: Pair)

  /** cooperation_policy (simulation.py:19-21): cooperate iff the partner's reputation is not negative. */
  predicate CooperationPolicy(agent: Agent, other: Agent) {
    other.reputation >= 0
  }

  /** reputation_policy (simulation.py:24-26): badmouth iff the uniform draw is below the
      agent's deception probability. */
  predicate ReputationPolicy(agent: Agent, draw: real)
    requires agent.traits.Deceiver?
  {
    draw < agent.traits.deceptionProbability
  }

  /** A probability of 0 never deceives and a probability of 1 always does, for draws in [0, 1). */
  lemma ReputationPolicyExtremes(agent: Agent, draw: real)
    requires agent.traits.Deceiver? && 0.0 <= draw < 1.0
    ensures agent.traits.deceptionProbability <= 0.0 ==> !ReputationPolicy(agent, draw)
    ensures agent.traits.deceptionProbability >= 1.0 ==> ReputationPolicy(agent, draw)
  {
  }

  /** The cooperation step's updates (simulation.py:143-154): on cooperation `a` pays 0.5,
      `b` gains 1.0 and `a`'s reputation rises, clamped at 5; on defection only `a`'s
      reputation falls, clamped at -5. */
  function Cooperation(s: seq<Agent>, a: nat, b: nat): (t: seq<Agent>)
    requires a < |s| && b < |s|
    ensures |t| == |s|
    ensures forall i :: 0 <= i < |s| ==> t[i].traits == s[i].traits
    ensures forall i :: 0 <= i < |s| && i != a && i != b ==> t[i] == s[i]
  {
    if CooperationPolicy(s[a], s[b]) then
      var s1 := s[a := s[a].(value := s[a].value - 0.5)];
      var s2 := s1[b := s1[b].(value := s1[b].value + 1.0)];
      s2[a := s2[a].(reputation := Raise(s2[a].reputation))]
    else
      s[a := s[a].(reputation := Lower(s[a].reputation))]
  }

  /** With two different agents: who gains, who pays, whose reputation moves. */
  lemma CooperationOfTwo(s: seq<Agent>, a: nat, b: nat)
    requires a < |s| && b < |s| && a != b
    ensures var t := Cooperation(s, a, b);
      if s[b].reputation >= 0 then
        && t[a] == s[a].(value := s[a].value - 0.5, reputation := Raise(s[a].reputation))
        && t[b] == s[b].(value := s[b].value + 1.0)
      else
        && t[a] == s[a].(reputation := Lower(s[a].reputation))
        && t[b] == s[b]
  {
  }

  /** When both names denote one agent, it pays 0.5 and gains 1.0, so its value grows by 0.5. */
  lemma CooperationOfOne(s: seq<Agent>, a: nat)
    requires a < |s|
    ensures var t := Cooperation(s, a, a);
      if s[a].reputation >= 0 then
        t[a] == s[a].(value := s[a].value + 0.5, reputation := Raise(s[a].reputation))
      else
        t[a] == s[a].(reputation := Lower(s[a].reputation))
  {
  }

  ghost predicate AllInRange(s: seq<Agent>) {
    forall i :: 0 <= i < |s| ==> ReputationInRange(s[i].reputation)
  }

  lemma CooperationKeepsRange(s: seq<Agent>, a: nat, b: nat)
    requires a < |s| && b < |s| && AllInRange(s)
    ensures AllInRange(Cooperation(s, a, b))
  {
  }

  /** The sum of all values: the total payoff of the population. */
  function TotalValue(s: seq<Agent>): real {
    if s == [] then 0.0 else TotalValue(s[..|s| - 1]) + s[|s| - 1].value
  }

  lemma {:induction false} TotalValueUpdate(s: seq<Agent>, i: nat, x: Agent)
    requires i < |s|
    ensures TotalValue(s[i := x]) == TotalValue(s) - s[i].value + x.value
  {
    var n := |s| - 1;
    assert s[i := x][..n] == if i == n then s[..n] else s[..n][i := x];
    if i < n {
      TotalValueUpdate(s[..n], i, x);
    }
  }

  /** Populations whose values agree position by position have the same total payoff. */
  lemma {:induction false} SameValuesSameTotal(s: seq<Agent>, t: seq<Agent>)
    requires |s| == |t| && forall i :: 0 <= i < |s| ==> s[i].value == t[i].value
    ensures TotalValue(s) == TotalValue(t)
  {
    if s != [] {
      SameValuesSameTotal(s[..|s| - 1], t[..|t| - 1]);
    }
  }

  lemma {:induction false} CooperativeUpdatesTotal(s: seq<Agent>, a: nat, b: nat)
    requires a < |s| && b < |s|
    ensures var s1 := s[a := s[a].(value := s[a].value - 0.5)];
            var s2 := s1[b := s1[b].(value := s1[b].value + 1.0)];
            TotalValue(s2[a := s2[a].(reputation := Raise(s2[a].reputation))]) == TotalValue(s) + 0.5
  {
    var s1 := s[a := s[a].(value := s[a].value - 0.5)];
    var s2 := s1[b := s1[b].(value := s1[b].value + 1.0)];
    TotalValueUpdate(s, a, s[a].(value := s[a].value - 0.5));
    TotalValueUpdate(s1, b, s1[b].(value := s1[b].value + 1.0));
    TotalValueUpdate(s2, a, s2[a].(reputation := Raise(s2[a].reputation)));
  }

  /** Each cooperation creates 0.5 of value in total (1.0 gained, 0.5 paid) and a defection
      none, whether the two positions differ or not. */
  lemma CooperationTotalValue(s: seq<Agent>, a: nat, b: nat)
    requires a < |s| && b < |s|
    ensures TotalValue(Cooperation(s, a, b)) ==
            TotalValue(s) + (if CooperationPolicy(s[a], s[b]) then 0.5 else 0.0)
  {
    if CooperationPolicy(s[a], s[b]) {
      CooperativeUpdatesTotal(s, a, b);
    } else {
      TotalValueUpdate(s, a, s[a].(reputation := Lower(s[a].reputation)));
    }
  }

  /** The deception step's updates once the partners are chosen (simulation.py:164-169):
      if `a` deceives, `b`'s reputation falls (clamped at -5), and on repercussion `a`'s falls too. */
  function Badmouth(s: seq<Agent>, a: nat, b: nat, deceived: bool, repercussion: bool): (t: seq<Agent>)
    requires a < |s| && b < |s|
    ensures |t| == |s|
    ensures forall i :: 0 <= i < |s| ==> t[i].value == s[i].value && t[i].traits == s[i].traits
    ensures forall i :: 0 <= i < |s| && i != a && i != b ==> t[i] == s[i]
    ensures !deceived ==> t == s
  {
    if !deceived then s
    else
      var s1 := s[b := s[b].(reputation := Lower(s[b].reputation))];
      if repercussion then s1[a := s1[a].(reputation := Lower(s1[a].reputation))] else s1
  }

  /** Deception only ever lowers reputations, never below -5, and keeps them in range. */
  lemma BadmouthLowers(s: seq<Agent>, a: nat, b: nat, deceived: bool, repercussion: bool)
    requires a < |s| && b < |s|
    ensures var t := Badmouth(s, a, b, deceived, repercussion);
      forall i :: 0 <= i < |s| ==>
        && (ReputationInRange(s[i].reputation) ==> ReputationInRange(t[i].reputation) && t[i].reputation <= s[i].reputation)
        && (t[i].reputation != s[i].reputation ==> t[i].reputation == Lower(s[i].reputation) || t[i].reputation == Lower(Lower(s[i].reputation)))
  {
  }

  /** With two different agents: `b` always loses one point, `a` one point on repercussion. */
  lemma BadmouthOfTwo(s: seq<Agent>, a: nat, b: nat, repercussion: bool)
    requires a < |s| && b < |s| && a != b
    ensures var t := Badmouth(s, a, b, true, repercussion);
      && t[b].reputation == Lower(s[b].reputation)
      && t[a].reputation == (if repercussion then Lower(s[a].reputation) else s[a].reputation)
  {
  }

  /** When both names denote one agent it badmouths itself: one point lost, and a second
      one on repercussion. */
  lemma BadmouthOfOne(s: seq<Agent>, a: nat, repercussion: bool)
    requires a < |s|
    ensures Badmouth(s, a, a, true, repercussion)[a] ==
      s[a].(reputation := if repercussion then Lower(Lower(s[a].reputation)) else Lower(s[a].reputation))
  {
  }

  lemma BadmouthKeepsRange(s: seq<Agent>, a: nat, b: nat, deceived: bool, repercussion: bool)
    requires a < |s| && b < |s| && AllInRange(s)
    ensures AllInRange(Badmouth(s, a, b, deceived, repercussion))
  {
  }
}
