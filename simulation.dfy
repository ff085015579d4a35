/** The list-based engine of simulation.py: a population of agent records that a two-phase
    step machine plays against each other and evolves between generations. Every random
    draw the source makes is a parameter of the method that makes it. */
module Simulation {
  import opened Agents
  import opened Configuration
  import opened Interaction
  import opened Selection

  // ---------------------------------------------------------------- agents

  /** create_agent (simulation.py:47-50): no value, neutral reputation, never deceives. */
  const NewAgent: Agent := Agent(0.0, 0, Deceiver(0.0))

  /** The shape every agent of this engine keeps: deception traits with a probability in
      [0, 1], and a reputation in [-5, 5]. */
  predicate WellFormed(a: Agent) {
    && a.traits.Deceiver?
    && 0.0 <= a.traits.deceptionProbability <= 1.0
    && ReputationInRange(a.reputation)
  }

  predicate AllWellFormed(s: seq<Agent>) {
    forall i :: 0 <= i < |s| ==> WellFormed(s[i])
  }

  predicate AllDeceivers(s: seq<Agent>) {
    forall i :: 0 <= i < |s| ==> s[i].traits.Deceiver?
  }

  // ---------------------------------------------------------------- random draws

  /** _get_two_agent_indices (simulation.py:174-179), given `first = randint(0, n - 1)` and
      `second = randint(0, n - 2)`: the second index skips over the first. */
  function TwoAgentIndices(n: nat, first: nat, second: nat): (p: Pair)
    requires n >= 2 && first < n && second < n - 1
    ensures p.Pair? && p.first == first
    ensures p.first < n && p.second < n && p.first != p.second
  {
    Pair(first, if second >= first then second + 1 else second)
  }

  /** Every ordered pair of distinct agents is drawn by exactly one value of the second draw. */
  lemma TwoAgentIndicesBijective(n: nat, x: nat, y: nat, second: nat)
    requires n >= 2 && x < n && y < n && x != y && second < n - 1
    ensures var s := if y > x then y - 1 else y;
      && s < n - 1
      && TwoAgentIndices(n, x, s) == Pair(x, y)
      && (TwoAgentIndices(n, x, second) == Pair(x, y) <==> second == s)
  {
  }

  /** The draws one interaction step consumes: the cooperation pair, the skip draw of the
      deception step, its pair, the deception draw and the repercussion draw. */
  datatype StepDraws = StepDraws(
    cooperationFirst: nat, cooperationSecond: nat,
    exchange: real,
    deceptionFirst: nat, deceptionSecond: nat,
    deception: real, repercussion: real)

  /** `randint` stays in its inclusive range and `random()` in [0, 1). */
  predicate DrawsInRange(d: StepDraws, n: nat) {
    && d.cooperationFirst < n && d.cooperationSecond + 1 < n
    && d.deceptionFirst < n && d.deceptionSecond + 1 < n
    && 0.0 <= d.exchange < 1.0 && 0.0 <= d.deception < 1.0 && 0.0 <= d.repercussion < 1.0
  }

  /** Draws for a call of step() that consumes none (the generation boundary). */
  const NoDraws: StepDraws := StepDraws(0, 0, 0.0, 0, 0, 0.0, 0.0)

  /** One `random()` per child born, in birth order. */
  predicate MutationDraws(mutation: seq<real>, children: nat) {
    |mutation| == children && forall k :: 0 <= k < |mutation| ==> 0.0 <= mutation[k] < 1.0
  }

  // ---------------------------------------------------------------- interaction rounds

  /** cooperation_step (simulation.py:139-154) on the pair drawn by _get_two_agents; the
      relation is "cooperate" exactly when the second agent's reputation is not negative. */
  function CooperationRound(s: seq<Agent>, d: StepDraws): (r: Round)
    requires |s| >= 2 && DrawsInRange(d, |s|)
    ensures |r.agents| == |s|
    ensures AllWellFormed(s) ==> AllWellFormed(r.agents)
    ensures r.pair == TwoAgentIndices(|s|, d.cooperationFirst, d.cooperationSecond)
    ensures r.pair.Pair? && r.pair.first < |s| && r.pair.second < |s| && r.pair.first != r.pair.second
    ensures r.relation == Cooperate || r.relation == Defect
    ensures r.relation == Cooperate <==> s[r.pair.second].reputation >= 0
  {
    var p := TwoAgentIndices(|s|, d.cooperationFirst, d.cooperationSecond);
    assert AllWellFormed(s) ==> AllWellFormed(Cooperation(s, p.first, p.second)) by {
      if AllWellFormed(s) {
        CooperationKeepsRange(s, p.first, p.second);
      }
    }
    Round(Cooperation(s, p.first, p.second),
          if CooperationPolicy(s[p.first], s[p.second]) then Cooperate else Defect,
          p)
  }

  /** deception_step (simulation.py:157-171): skipped when the skip draw falls below the
      exchange probability; otherwise a pair is drawn and, whenever the first deceives,
      caught or not, the relation becomes "deception". */
  function DeceptionRound(settings: Settings, r: Round, d: StepDraws): (t: Round)
    requires |r.agents| >= 2 && DrawsInRange(d, |r.agents|) && AllDeceivers(r.agents)
    ensures |t.agents| == |r.agents|
    ensures AllWellFormed(r.agents) ==> AllWellFormed(t.agents)
    ensures d.exchange < settings.probabilityOfAReputationExchange ==> t == r
    ensures forall i :: 0 <= i < |r.agents| ==> t.agents[i].value == r.agents[i].value
    ensures AllWellFormed(r.agents) ==>
      forall i :: 0 <= i < |r.agents| ==> t.agents[i].reputation <= r.agents[i].reputation
    ensures d.exchange >= settings.probabilityOfAReputationExchange ==>
      && t.pair == TwoAgentIndices(|r.agents|, d.deceptionFirst, d.deceptionSecond)
      && t.relation == (if ReputationPolicy(r.agents[t.pair.first], d.deception) then Deception else r.relation)
  {
    if d.exchange < settings.probabilityOfAReputationExchange then r
    else
      var p := TwoAgentIndices(|r.agents|, d.deceptionFirst, d.deceptionSecond);
      var deceived := ReputationPolicy(r.agents[p.first], d.deception);
      var repercussion := d.repercussion < settings.probabilityOfRepercussion;
      assert AllWellFormed(r.agents) ==> AllWellFormed(Badmouth(r.agents, p.first, p.second, deceived, repercussion)) by {
        if AllWellFormed(r.agents) {
          BadmouthKeepsRange(r.agents, p.first, p.second, deceived, repercussion);
        }
      }
      BadmouthLowers(r.agents, p.first, p.second, deceived, repercussion);
      Round(Badmouth(r.agents, p.first, p.second, deceived, repercussion),
            if deceived then Deception else r.relation,
            p)
  }

  /** The interaction phase of one step(): a cooperation round, then a deception round. */
  function InteractionRound(settings: Settings, r: Round, d: StepDraws): (t: Round)
    requires |r.agents| >= 2 && DrawsInRange(d, |r.agents|) && AllWellFormed(r.agents)
    ensures |t.agents| == |r.agents| && AllWellFormed(t.agents)
  {
    DeceptionRound(settings, CooperationRound(r.agents, d), d)
  }

  /** A whole sequence of interaction steps. */
  function Play(settings: Settings, r: Round, draws: seq<StepDraws>): (t: Round)
    requires |r.agents| >= 2 && AllWellFormed(r.agents)
    requires forall k :: 0 <= k < |draws| ==> DrawsInRange(draws[k], |r.agents|)
    ensures |t.agents| == |r.agents|
    ensures AllWellFormed(t.agents)
  {
    if draws == [] then r
    else InteractionRound(settings, Play(settings, r, draws[..|draws| - 1]), draws[|draws| - 1])
  }

  /** Playing one more step of a longer sequence of draws. */
  lemma PlaySnoc(settings: Settings, r: Round, draws: seq<StepDraws>, k: nat)
    requires |r.agents| >= 2 && AllWellFormed(r.agents) && k < |draws|
    requires forall k :: 0 <= k < |draws| ==> DrawsInRange(draws[k], |r.agents|)
    ensures |Play(settings, r, draws[..k]).agents| == |r.agents|
    ensures Play(settings, r, draws[..k + 1]) == InteractionRound(settings, Play(settings, r, draws[..k]), draws[k])
  {
    assert draws[..k + 1][..k] == draws[..k];
  }

  /** The first step from a fresh population: the agent at the first drawn index pays 0.5
      for cooperating with the agent at the second, which gains 1.0, and nobody else's
      value moves. */
  lemma FirstStepPays(settings: Settings, n: nat, d: StepDraws)
    requires n >= 2 && DrawsInRange(d, n)
    ensures AllWellFormed(seq(n, _ => NewAgent))
    ensures var p := TwoAgentIndices(n, d.cooperationFirst, d.cooperationSecond);
      var t := InteractionRound(settings, Round(seq(n, _ => NewAgent), NoRelation, NoPair), d);
      && t.agents[p.first].value == -0.5 && t.agents[p.second].value == 1.0
      && forall i :: 0 <= i < n && i != p.first && i != p.second ==> t.agents[i].value == 0.0
  {
    var s := seq(n, _ => NewAgent);
    assert AllWellFormed(s);
    var p := TwoAgentIndices(n, d.cooperationFirst, d.cooperationSecond);
    CooperationOfTwo(s, p.first, p.second);
  }

  /** Reputations stay in [-5, 5] and deception probabilities in [0, 1] over any number of
      interaction steps, and the payoffs grow by 0.5 per cooperation (deception moves none):
      the total value never falls. */
  lemma {:induction false} PlayKeepsTotalValue(settings: Settings, r: Round, draws: seq<StepDraws>)
    requires |r.agents| >= 2 && AllWellFormed(r.agents)
    requires forall k :: 0 <= k < |draws| ==> DrawsInRange(draws[k], |r.agents|)
    ensures TotalValue(Play(settings, r, draws).agents) >= TotalValue(r.agents)
    ensures TotalValue(Play(settings, r, draws).agents) <= TotalValue(r.agents) + 0.5 * |draws| as real
  {
    if draws != [] {
      var n := |draws| - 1;
      var before := Play(settings, r, draws[..n]);
      PlayKeepsTotalValue(settings, r, draws[..n]);
      var p := TwoAgentIndices(|before.agents|, draws[n].cooperationFirst, draws[n].cooperationSecond);
      CooperationTotalValue(before.agents, p.first, p.second);
      var c := CooperationRound(before.agents, draws[n]);
      DeceptionKeepsTotalValue(settings, c, draws[n]);
    }
  }

  lemma DeceptionKeepsTotalValue(settings: Settings, r: Round, d: StepDraws)
    requires |r.agents| >= 2 && DrawsInRange(d, |r.agents|) && AllDeceivers(r.agents)
    ensures TotalValue(DeceptionRound(settings, r, d).agents) == TotalValue(r.agents)
  {
    SameValuesSameTotal(DeceptionRound(settings, r, d).agents, r.agents);
  }

  // ---------------------------------------------------------------- selection

  /** mutate (simulation.py:129-132): the deception probability moves by
      `mutation_rate * (2 * draw - 1)` and is clipped to [0, 1]; agents without deception
      traits do not occur in this engine and are left as they are. */
  function Mutated(a: Agent, rate: real, draw: real): (m: Agent)
    ensures m.value == a.value && m.reputation == a.reputation && m.traits.Deceiver? == a.traits.Deceiver?
    ensures a.traits.Deceiver? ==> 0.0 <= m.traits.deceptionProbability <= 1.0
    ensures a.traits.Deceiver? && 0.0 <= a.traits.deceptionProbability <= 1.0 && 0.0 <= rate && 0.0 <= draw < 1.0 ==>
      -rate <= m.traits.deceptionProbability - a.traits.deceptionProbability <= rate
  {
    match a.traits
    case Deceiver(p) =>
      var shift := rate * (2.0 * draw - 1.0);
      assert 0.0 <= rate && 0.0 <= draw < 1.0 ==> -rate <= shift <= rate by {
        if 0.0 <= rate && 0.0 <= draw < 1.0 {
          assert -1.0 <= 2.0 * draw - 1.0 <= 1.0;
          assert rate * (2.0 * draw - 1.0) <= rate * 1.0;
          assert rate * (2.0 * draw - 1.0) >= rate * -1.0;
        }
      }
      a.(traits := Deceiver(Clip(shift + p, 0.0, 1.0)))
    case _ => a
  }

  /** `dict(parent)`, reset, mutated with the draw belonging to its birth position. */
  function Born(offspring: seq<Agent>, rate: real, mutation: seq<real>): (children: seq<Agent>)
    requires |offspring| <= |mutation|
    ensures |children| == |offspring|
  {
    seq(|offspring|, k requires 0 <= k < |offspring| => Mutated(Reset(offspring[k]), rate, mutation[k]))
  }

  /** Appending one more copy grows the truncated offspring by one child while there is
      room, and changes nothing once `c` children have been born. */
  lemma GrowTake(b: seq<Agent>, p: Agent, c: nat, rate: real, mutation: seq<real>)
    requires c <= |mutation|
    ensures |b| < c ==>
      Born(Take(b + [p], c), rate, mutation) == Born(Take(b, c), rate, mutation) + [Mutated(Reset(p), rate, mutation[|b|])]
    ensures |b| >= c ==> Take(b + [p], c) == Take(b, c)
  {
    if |b| >= c {
      assert (b + [p])[..c] == b[..c];
    }
  }

  /** The agents select_agents leaves behind (simulation.py:79-127), given the population
      ranked fittest first: the top `number_of_surviving_agents`, reset, followed by the
      offspring, each reset and mutated with the draw of its birth position. */
  function Selected(settings: Settings, ranked: seq<Agent>, mutation: seq<real>): (next: seq<Agent>)
    requires settings.Valid() && |ranked| == settings.numberOfAgents && Descending(ranked)
    requires |mutation| == settings.Children()
    requires SharesDefined(ranked, settings.influenceOfFitness)
    ensures |next| == |ranked|
  {
    ResetAll(ranked[..settings.numberOfSurvivingAgents]) +
    Born(Offspring(ranked, settings.numberOfParents, settings.influenceOfFitness, settings.Children()),
         settings.mutationRate, mutation)
  }

  /** Position `k` after selection: a reset survivor below `number_of_surviving_agents`,
      above it the reset and mutated copy of the offspring at the same birth position. */
  lemma SelectedAt(settings: Settings, ranked: seq<Agent>, mutation: seq<real>, k: nat)
    requires settings.Valid() && |ranked| == settings.numberOfAgents && Descending(ranked)
    requires |mutation| == settings.Children()
    requires SharesDefined(ranked, settings.influenceOfFitness)
    requires k < settings.numberOfAgents
    ensures k < settings.numberOfSurvivingAgents ==> Selected(settings, ranked, mutation)[k] == Reset(ranked[k])
    ensures settings.numberOfSurvivingAgents <= k ==>
      Selected(settings, ranked, mutation)[k] ==
        Mutated(Reset(Offspring(ranked, settings.numberOfParents, settings.influenceOfFitness,
                                settings.Children())[k - settings.numberOfSurvivingAgents]),
                settings.mutationRate, mutation[k - settings.numberOfSurvivingAgents])
  {
    var S := settings.numberOfSurvivingAgents;
    var born := Offspring(ranked, settings.numberOfParents, settings.influenceOfFitness, settings.Children());
    var survivors := ResetAll(ranked[..S]);
    var children := Born(born, settings.mutationRate, mutation);
    assert Selected(settings, ranked, mutation) == survivors + children;
    if k < S {
      assert survivors[k] == Reset(ranked[k]);
    } else {
      assert children[k - S] == Mutated(Reset(born[k - S]), settings.mutationRate, mutation[k - S]);
    }
  }

  /** After selection every agent has value 0 and reputation 0. */
  lemma SelectedReset(settings: Settings, ranked: seq<Agent>, mutation: seq<real>)
    requires settings.Valid() && |ranked| == settings.numberOfAgents && Descending(ranked)
    requires |mutation| == settings.Children()
    requires SharesDefined(ranked, settings.influenceOfFitness)
    ensures var next := Selected(settings, ranked, mutation);
      forall i :: 0 <= i < |next| ==> next[i].value == 0.0 && next[i].reputation == 0
  {
    var next := Selected(settings, ranked, mutation);
    forall i | 0 <= i < |next|
      ensures next[i].value == 0.0 && next[i].reputation == 0
    {
      SelectedAt(settings, ranked, mutation, i);
    }
  }

  /** The survivors are the top `number_of_surviving_agents` of the ranking, in ranking order. */
  lemma SelectedSurvivors(settings: Settings, ranked: seq<Agent>, mutation: seq<real>)
    requires settings.Valid() && |ranked| == settings.numberOfAgents && Descending(ranked)
    requires |mutation| == settings.Children()
    requires SharesDefined(ranked, settings.influenceOfFitness)
    ensures forall i :: 0 <= i < settings.numberOfSurvivingAgents ==>
      Selected(settings, ranked, mutation)[i] == Reset(ranked[i])
  {
    forall i | 0 <= i < settings.numberOfSurvivingAgents
      ensures Selected(settings, ranked, mutation)[i] == Reset(ranked[i])
    {
      SelectedAt(settings, ranked, mutation, i);
    }
  }

  /** Every child is a reset, mutated copy of one of the first `number_of_parents` agents of
      the ranking. */
  lemma SelectedChildren(settings: Settings, ranked: seq<Agent>, mutation: seq<real>, i: nat)
    requires settings.Valid() && |ranked| == settings.numberOfAgents && Descending(ranked)
    requires |mutation| == settings.Children()
    requires SharesDefined(ranked, settings.influenceOfFitness)
    requires settings.numberOfSurvivingAgents <= i < settings.numberOfAgents
    ensures exists j ::
      && 0 <= j < settings.numberOfParents && j < |ranked|
      && Selected(settings, ranked, mutation)[i] ==
           Mutated(Reset(ranked[j]), settings.mutationRate, mutation[i - settings.numberOfSurvivingAgents])
  {
    var S := settings.numberOfSurvivingAgents;
    SelectedAt(settings, ranked, mutation, i);
    var parents := Parents(ranked, settings.numberOfParents);
    var born := Offspring(ranked, settings.numberOfParents, settings.influenceOfFitness, settings.Children());
    OffspringFromParents(ranked, settings.numberOfParents, settings.influenceOfFitness, settings.Children());
    assert born[i - S] in parents;
    var j :| 0 <= j < |parents| && parents[j] == born[i - S];
    assert ranked[j] == born[i - S];
  }

  /** Sorting keeps the population well formed: the ranking holds the same agents. */
  lemma RankingKeepsWellFormed(agents: seq<Agent>)
    requires AllWellFormed(agents)
    ensures AllWellFormed(SortDesc(agents))
  {
    var ranked := SortDesc(agents);
    SortDescIsRanking(agents);
    forall i | 0 <= i < |ranked| ensures WellFormed(ranked[i]) {
      assert ranked[i] in multiset(agents);
    }
  }

  /** Selection keeps the population well formed: reputations are 0, survivors keep their
      deception probability and every child's probability lies in [0, 1]. */
  lemma SelectedWellFormed(settings: Settings, ranked: seq<Agent>, mutation: seq<real>)
    requires settings.Valid() && |ranked| == settings.numberOfAgents && Descending(ranked)
    requires AllWellFormed(ranked) && MutationDraws(mutation, settings.Children())
    requires SharesDefined(ranked, settings.influenceOfFitness)
    ensures AllWellFormed(Selected(settings, ranked, mutation))
  {
    var next := Selected(settings, ranked, mutation);
    var S := settings.numberOfSurvivingAgents;
    forall i | 0 <= i < |next| ensures WellFormed(next[i]) {
      SelectedAt(settings, ranked, mutation, i);
      if S <= i {
        SelectedChildren(settings, ranked, mutation, i);
        var j :| 0 <= j < settings.numberOfParents && j < |ranked| &&
          next[i] == Mutated(Reset(ranked[j]), settings.mutationRate, mutation[i - S]);
        assert WellFormed(ranked[j]);
      }
    }
  }

  /** Every child's deception probability lies within the mutation rate of the probability
      of one of the parents. */
  lemma SelectedMutationBound(settings: Settings, ranked: seq<Agent>, mutation: seq<real>)
    requires settings.Valid() && |ranked| == settings.numberOfAgents && Descending(ranked)
    requires AllWellFormed(ranked) && MutationDraws(mutation, settings.Children())
    requires SharesDefined(ranked, settings.influenceOfFitness)
    ensures var next := Selected(settings, ranked, mutation);
      && AllWellFormed(next)
      && forall i :: settings.numberOfSurvivingAgents <= i < |next| ==>
           exists j :: (0 <= j < settings.numberOfParents && j < |ranked| &&
             -settings.mutationRate <= next[i].traits.deceptionProbability - ranked[j].traits.deceptionProbability <= settings.mutationRate)
  {
    var next := Selected(settings, ranked, mutation);
    var S := settings.numberOfSurvivingAgents;
    SelectedWellFormed(settings, ranked, mutation);
    forall i | S <= i < |next|
      ensures exists j :: (0 <= j < settings.numberOfParents && j < |ranked| &&
        -settings.mutationRate <= next[i].traits.deceptionProbability - ranked[j].traits.deceptionProbability <= settings.mutationRate)
    {
      SelectedChildren(settings, ranked, mutation, i);
      var j :| 0 <= j < settings.numberOfParents && j < |ranked| &&
        next[i] == Mutated(Reset(ranked[j]), settings.mutationRate, mutation[i - S]);
      assert WellFormed(ranked[j]);
    }
  }

  // ---------------------------------------------------------------- the log

  /** `self.log`: one list per recorded property, one row per logged moment. */
  datatype Log = Log(values: seq<seq<real>>, reputations: seq<seq<int>>, deceptionProbabilities: seq<seq<real>>)

  const EmptyLog: Log := Log([], [], [])

  /** The log has `rows` rows for every property, each holding one entry per agent. */
  predicate LogShape(log: Log, rows: nat, n: nat) {
    && |log.values| == rows && |log.reputations| == rows && |log.deceptionProbabilities| == rows
    && (forall k :: 0 <= k < rows ==> |log.values[k]| == n)
    && (forall k :: 0 <= k < rows ==> |log.reputations[k]| == n)
    && (forall k :: 0 <= k < rows ==> |log.deceptionProbabilities[k]| == n)
  }

  /** `[agent[key] for agent in self.agents]` for the three keys. */
  function Values(s: seq<Agent>): (v: seq<real>)
    ensures |v| == |s| && forall i :: 0 <= i < |s| ==> v[i] == s[i].value
  {
    seq(|s|, i requires 0 <= i < |s| => s[i].value)
  }

  function Reputations(s: seq<Agent>): (v: seq<int>)
    ensures |v| == |s| && forall i :: 0 <= i < |s| ==> v[i] == s[i].reputation
  {
    seq(|s|, i requires 0 <= i < |s| => s[i].reputation)
  }

  function DeceptionProbabilities(s: seq<Agent>): (v: seq<real>)
    requires AllDeceivers(s)
    ensures |v| == |s| && forall i :: 0 <= i < |s| ==> v[i] == s[i].traits.deceptionProbability
  {
    seq(|s|, i requires 0 <= i < |s| => s[i].traits.deceptionProbability)
  }

  /** _update_log (simulation.py:181-185): one more row per property, holding the current
      population's column, with the earlier rows kept. */
  function Logged(log: Log, s: seq<Agent>): (l: Log)
    requires AllDeceivers(s)
    ensures |l.values| == |log.values| + 1 && l.values[..|log.values|] == log.values
    ensures |l.reputations| == |log.reputations| + 1 && l.reputations[..|log.reputations|] == log.reputations
    ensures |l.deceptionProbabilities| == |log.deceptionProbabilities| + 1
    ensures l.deceptionProbabilities[..|log.deceptionProbabilities|] == log.deceptionProbabilities
    ensures |l.values[|log.values|]| == |s| && forall i :: 0 <= i < |s| ==> l.values[|log.values|][i] == s[i].value
    ensures |l.reputations[|log.reputations|]| == |s| &&
      forall i :: 0 <= i < |s| ==> l.reputations[|log.reputations|][i] == s[i].reputation
    ensures |l.deceptionProbabilities[|log.deceptionProbabilities|]| == |s| &&
      forall i :: 0 <= i < |s| ==>
        l.deceptionProbabilities[|log.deceptionProbabilities|][i] == s[i].traits.deceptionProbability
    ensures LogShape(log, |log.values|, |s|) ==> LogShape(l, |log.values| + 1, |s|)
  {
    Log(log.values + [Values(s)], log.reputations + [Reputations(s)],
        log.deceptionProbabilities + [DeceptionProbabilities(s)])
  }

  /** The number of log rows written before interaction step `simstep` of generation
      `generation`: every earlier generation logged its `budget` steps and its boundary. */
  function LoggedRows(generation: nat, simstep: nat, budget: nat): nat
    requires generation >= 1
    decreases generation
  {
    if generation == 1 then simstep else LoggedRows(generation - 1, simstep + budget + 1, budget)
  }

  /** The count in closed form: `budget + 1` rows per finished generation. */
  lemma {:induction false} LoggedRowsClosedForm(generation: nat, simstep: nat, budget: nat)
    requires generation >= 1
    ensures LoggedRows(generation, simstep, budget) == (generation - 1) * (budget + 1) + simstep
    decreases generation
  {
    if generation > 1 {
      LoggedRowsClosedForm(generation - 1, simstep + budget + 1, budget);
    }
  }

  /** An interaction step adds one row. */
  lemma {:induction false} LoggedRowsStep(generation: nat, simstep: nat, budget: nat)
    requires generation >= 1
    ensures LoggedRows(generation, simstep + 1, budget) == LoggedRows(generation, simstep, budget) + 1
    decreases generation
  {
    if generation > 1 {
      LoggedRowsStep(generation - 1, simstep + budget + 1, budget);
    }
  }

  /** So does a generation boundary, after which the count restarts from the new generation. */
  lemma LoggedRowsRollover(generation: nat, budget: nat)
    requires generation >= 1
    ensures LoggedRows(generation + 1, 0, budget) == LoggedRows(generation, budget, budget) + 1
  {
    LoggedRowsStep(generation, budget, budget);
  }

  /** Logging at an interaction step or at a generation boundary keeps one row per step
      and boundary passed. */
  lemma LoggedKeepsShape(log: Log, s: seq<Agent>, generation: nat, simstep: nat, budget: nat)
    requires generation >= 1 && AllDeceivers(s)
    requires LogShape(log, LoggedRows(generation, simstep, budget), |s|)
    ensures LogShape(Logged(log, s), LoggedRows(generation, simstep + 1, budget), |s|)
    ensures simstep == budget ==> LogShape(Logged(log, s), LoggedRows(generation + 1, 0, budget), |s|)
  {
    LoggedRowsStep(generation, simstep, budget);
    if simstep == budget {
      LoggedRowsRollover(generation, budget);
    }
  }

  // ---------------------------------------------------------------- the loops of select_agents

  /** The value the shares loop computes for parent `i` is that parent's share. */
  lemma ShareOfParent(ranked: seq<Agent>, numberOfParents: nat, influence: real, i: nat, normalizedFitness: real)
    requires |ranked| >= 1 && i < |Parents(ranked, numberOfParents)|
    requires normalizedFitness ==
      NormFactor(ranked[0].value, ranked[|ranked| - 1].value) * (ranked[i].value - ranked[|ranked| - 1].value)
    ensures (1.0 - influence) + normalizedFitness * influence == RankedShares(ranked, numberOfParents, influence)[i]
  {
    RankedShareAt(ranked, numberOfParents, influence, i);
  }

  /** The shares loop of select_agents (simulation.py:91-110): the normalised fitness of every
      parent, weighted by the influence, and their running sum. */
  method ComputeShares(ranked: seq<Agent>, numberOfParents: nat, influence: real)
    returns (shares: seq<real>, sumOfShares: real)
    requires |ranked| >= 1 && numberOfParents >= 1
    ensures shares == RankedShares(ranked, numberOfParents, influence)
    ensures sumOfShares == Sum(shares)
  {
    var parents := ranked[..if numberOfParents < |ranked| then numberOfParents else |ranked|];
    var minFitness := ranked[|ranked| - 1].value;
    var maxFitness := parents[0].value;
    var normFactor := NormFactor(maxFitness, minFitness);
    ghost var allShares := RankedShares(ranked, numberOfParents, influence);
    assert maxFitness == ranked[0].value && parents == ranked[..|parents|];
    shares := [];
    sumOfShares := 0.0;
    for i := 0 to |parents|
      invariant |shares| == i && shares == allShares[..i]
      invariant sumOfShares == Sum(shares)
    {
      var normalizedFitness := normFactor * (parents[i].value - minFitness);
      ShareOfParent(ranked, numberOfParents, influence, i, normalizedFitness);
      var share := (1.0 - influence) + normalizedFitness * influence;
      assert allShares[..i + 1] == shares + [share];
      assert (shares + [share])[..i] == shares;
      sumOfShares := sumOfShares + share;
      shares := shares + [share];
    }
  }

  /** `new_agents = agents[:number_of_surviving_agents]`, each reset (simulation.py:113-115). */
  method ResetSurvivors(ranked: seq<Agent>, numberOfSurvivingAgents: nat) returns (survivors: seq<Agent>)
    requires numberOfSurvivingAgents <= |ranked|
    ensures survivors == ResetAll(ranked[..numberOfSurvivingAgents])
  {
    survivors := ranked[..numberOfSurvivingAgents];
    for i := 0 to numberOfSurvivingAgents
      invariant |survivors| == numberOfSurvivingAgents
      invariant forall k :: 0 <= k < i ==> survivors[k] == Reset(ranked[k])
      invariant forall k :: i <= k < numberOfSurvivingAgents ==> survivors[k] == ranked[k]
    {
      survivors := survivors[i := Reset(survivors[i])];
    }
  }

  /** The children loop of select_agents (simulation.py:117-126): every parent in turn gets
      `ceil(children * share / sum)` children, appended only while the population is short of
      `total`; each child is reset and then mutated with the next draw. */
  method AppendChildren(survivors: seq<Agent>, total: nat, parents: seq<Agent>, shares: seq<real>,
                        sumOfShares: real, ghost m: real, rate: real, mutation: seq<real>)
    returns (newAgents: seq<Agent>)
    requires |shares| == |parents| && sumOfShares > 0.0
    requires forall i :: 0 <= i < |shares| ==> shares[i] >= 0.0
    requires |survivors| <= total && |mutation| == total - |survivors|
    requires m >= 0.0 && m * sumOfShares == (total - |survivors|) as real
    ensures newAgents == survivors + Born(Take(Repeat(parents, ChildCounts(m, shares)), total - |survivors|), rate, mutation)
  {
    var children := total - |survivors|;
    ghost var counts := ChildCounts(m, shares);
    newAgents := survivors;
    for index := 0 to |parents|
      invariant newAgents == survivors + Born(Take(Repeat(parents[..index], counts[..index]), children), rate, mutation)
    {
      var numberOfChildren := NumberOfChildren(children, shares[index], sumOfShares, m);
      newAgents := AppendCopies(survivors, newAgents, total, Repeat(parents[..index], counts[..index]),
                                parents[index], numberOfChildren, rate, mutation);
      RepeatSnoc(parents, counts, index);
    }
    assert parents[..|parents|] == parents && counts[..|counts|] == counts;
  }

  /** `math.ceil(new_children_born * share / sum_of_shares)` (simulation.py:120), which is the
      share scaled by `m = children / sum`. */
  method NumberOfChildren(children: nat, share: real, sumOfShares: real, ghost m: real) returns (count: nat)
    requires sumOfShares > 0.0 && share >= 0.0 && m >= 0.0 && m * sumOfShares == children as real
    ensures count == CountOf(m, share)
  {
    ScaledShare(children, share, sumOfShares, m);
    count := Ceil(children as real * share / sumOfShares);
  }

  /** The inner loop for one parent: `count` attempts to append a reset, mutated copy. */
  method AppendCopies(survivors: seq<Agent>, newAgents: seq<Agent>, total: nat, ghost front: seq<Agent>,
                      parent: Agent, count: nat, rate: real, mutation: seq<real>)
    returns (result: seq<Agent>)
    requires |survivors| <= total && |mutation| == total - |survivors|
    requires newAgents == survivors + Born(Take(front, total - |survivors|), rate, mutation)
    ensures result == survivors + Born(Take(front + seq(count, _ => parent), total - |survivors|), rate, mutation)
  {
    var S, children := |survivors|, total - |survivors|;
    result := newAgents;
    assert front + seq(0, _ => parent) == front;
    for i := 0 to count
      invariant result == survivors + Born(Take(front + seq(i, _ => parent), children), rate, mutation)
    {
      ghost var before := front + seq(i, _ => parent);
      assert front + seq(i + 1, _ => parent) == before + [parent];
      GrowTake(before, parent, children, rate, mutation);
      if |result| < total {
        var child := Reset(parent);
        child := Mutated(child, rate, mutation[|result| - S]);
        result := result + [child];
      }
    }
  }

  /** The shares and children loops of select_agents (simulation.py:90-126): the children
      born into a population that already holds `survivors`. */
  method BreedChildren(ranked: seq<Agent>, numberOfParents: nat, influence: real, survivors: seq<Agent>,
                       rate: real, mutation: seq<real>) returns (next: seq<Agent>)
    requires |ranked| >= 1 && Descending(ranked) && numberOfParents >= 1
    requires 0.0 <= influence <= 1.0 && SharesDefined(ranked, influence)
    requires |survivors| <= |ranked| && |mutation| == |ranked| - |survivors|
    ensures next == survivors + Born(Offspring(ranked, numberOfParents, influence, |ranked| - |survivors|), rate, mutation)
  {
    var parents := Parents(ranked, numberOfParents);
    var shares, sumOfShares := ComputeShares(ranked, numberOfParents, influence);
    ghost var m := OffspringByFactor(ranked, numberOfParents, influence, |ranked| - |survivors|, sumOfShares);
    next := AppendChildren(survivors, |ranked|, parents, shares, sumOfShares, m, rate, mutation);
  }

  /** The body of select_agents after the sort (simulation.py:90-127). */
  method SelectFromRanking(settings: Settings, ranked: seq<Agent>, mutation: seq<real>) returns (next: seq<Agent>)
    requires settings.Valid() && |ranked| == settings.numberOfAgents && Descending(ranked)
    requires MutationDraws(mutation, settings.Children())
    requires SharesDefined(ranked, settings.influenceOfFitness)
    ensures next == Selected(settings, ranked, mutation)
  {
    var survivors := ResetSurvivors(ranked, settings.numberOfSurvivingAgents);
    next := BreedChildren(ranked, settings.numberOfParents, settings.influenceOfFitness, survivors,
                          settings.mutationRate, mutation);
  }

  // ---------------------------------------------------------------- the engine

  class Simulation {
    const settings: Settings
    var agents: seq<Agent>
    var currentSimstep: nat
    var currentGeneration: nat
    var lastRelation: Relation
    var lastPair: Pair
    var log: Log

    /** The engine's invariant: a well-formed population of the configured size, counters in
        range, and one log row for every interaction step and every generation boundary
        passed so far. */
    ghost predicate Valid()
      reads this
    {
      && settings.Valid()
      && |agents| == settings.numberOfAgents
      && AllWellFormed(agents)
      && currentSimstep <= settings.stepsPerGeneration
      && 1 <= currentGeneration
      && (currentGeneration <= settings.numberOfGenerations || currentGeneration == 1)
      && LogShape(log, LoggedRows(currentGeneration, currentSimstep, settings.stepsPerGeneration),
                  settings.numberOfAgents)
    }

    /** __init__ (simulation.py:33-45). */
    constructor (settings: Settings)
      requires settings.Valid()
      ensures this.settings == settings
      ensures agents == seq(settings.numberOfAgents, _ => NewAgent)
      ensures currentSimstep == 0 && currentGeneration == 1
      ensures lastRelation == NoRelation && lastPair == NoPair && log == EmptyLog
      ensures Valid()
    {
      this.settings := settings;
      agents := seq(settings.numberOfAgents, _ => NewAgent);
      currentSimstep := 0;
      currentGeneration := 1;
      lastRelation := NoRelation;
      lastPair := NoPair;
      log := EmptyLog;
    }

    /** The state the step functions read and write. */
    function State(): Round
      reads this
    {
      Round(agents, lastRelation, lastPair)
    }

    /** cooperation_step (simulation.py:139-154), updating the two agents in place. */
    method CooperationStep(d: StepDraws)
      requires Valid() && DrawsInRange(d, |agents|)
      modifies this
      ensures State() == CooperationRound(old(agents), d)
      ensures currentSimstep == old(currentSimstep) && currentGeneration == old(currentGeneration)
      ensures log == old(log)
      ensures Valid()
    {
      lastPair := TwoAgentIndices(|agents|, d.cooperationFirst, d.cooperationSecond);
      var a, b := lastPair.first, lastPair.second;
      if CooperationPolicy(agents[a], agents[b]) {
        agents := agents[a := agents[a].(value := agents[a].value - 0.5)];
        agents := agents[b := agents[b].(value := agents[b].value + 1.0)];
        agents := agents[a := agents[a].(reputation := Raise(agents[a].reputation))];
        lastRelation := Cooperate;
      } else {
        agents := agents[a := agents[a].(reputation := Lower(agents[a].reputation))];
        lastRelation := Defect;
      }
    }

    /** deception_step (simulation.py:157-171). */
    method DeceptionStep(d: StepDraws)
      requires Valid() && DrawsInRange(d, |agents|)
      modifies this
      ensures State() == DeceptionRound(settings, old(State()), d)
      ensures currentSimstep == old(currentSimstep) && currentGeneration == old(currentGeneration)
      ensures log == old(log)
      ensures Valid()
    {
      if d.exchange < settings.probabilityOfAReputationExchange {
        return;
      }
      lastPair := TwoAgentIndices(|agents|, d.deceptionFirst, d.deceptionSecond);
      var a, b := lastPair.first, lastPair.second;
      if ReputationPolicy(agents[a], d.deception) {
        agents := agents[b := agents[b].(reputation := Lower(agents[b].reputation))];
        if d.repercussion < settings.probabilityOfRepercussion {
          agents := agents[a := agents[a].(reputation := Lower(agents[a].reputation))];
        }
        lastRelation := Deception;
      }
    }

    /** _update_log (simulation.py:181-185). */
    method UpdateLog()
      requires AllDeceivers(agents)
      modifies this
      ensures agents == old(agents) && lastRelation == old(lastRelation) && lastPair == old(lastPair)
      ensures log == Logged(old(log), agents)
      ensures currentSimstep == old(currentSimstep) && currentGeneration == old(currentGeneration)
    {
      log := Logged(log, agents);
    }

    /** select_agents (simulation.py:79-127): sorts the population in place, computes the
        shares, resets the survivors and appends reset and mutated children until the
        population has its old size again. */
    method SelectAgents(mutation: seq<real>)
      requires settings.Valid() && |agents| == settings.numberOfAgents
      requires MutationDraws(mutation, settings.Children())
      requires SharesDefined(SortDesc(agents), settings.influenceOfFitness)
      modifies this
      ensures |agents| == |old(agents)|
      ensures agents == Selected(settings, SortDesc(old(agents)), mutation)
      ensures lastRelation == old(lastRelation) && lastPair == old(lastPair) && log == old(log)
      ensures currentSimstep == old(currentSimstep) && currentGeneration == old(currentGeneration)
    {
      var ranked := SortDesc(agents);
      var next := SelectFromRanking(settings, ranked, mutation);
      agents := next;
    }

    /** The interaction branch of step (simulation.py:55-59): cooperate, deceive, count the
        step and log the population. */
    method Interact(d: StepDraws)
      requires Valid() && DrawsInRange(d, |agents|) && currentSimstep < settings.stepsPerGeneration
      modifies this
      ensures Valid()
      ensures currentSimstep == old(currentSimstep) + 1 && currentGeneration == old(currentGeneration)
      ensures State() == InteractionRound(settings, old(State()), d)
      ensures log == Logged(old(log), agents)
    {
      CooperationStep(d);
      DeceptionStep(d);
      LoggedRowsStep(currentGeneration, currentSimstep, settings.stepsPerGeneration);
      currentSimstep := currentSimstep + 1;
      UpdateLog();
    }

    /** The generation boundary of step (simulation.py:61-67): log the population, clear the
        relation, select the next population and start the next generation. */
    method Rollover(mutation: seq<real>)
      requires Valid() && MutationDraws(mutation, settings.Children())
      requires currentSimstep == settings.stepsPerGeneration && currentGeneration < settings.numberOfGenerations
      requires SharesDefined(SortDesc(agents), settings.influenceOfFitness)
      modifies this
      ensures Valid()
      ensures currentSimstep == 0 && currentGeneration == old(currentGeneration) + 1
      ensures agents == Selected(settings, SortDesc(old(agents)), mutation)
      ensures lastRelation == NoRelation && lastPair == old(lastPair)
      ensures log == Logged(old(log), old(agents))
    {
      ghost var ranked := SortDesc(agents);
      RankingKeepsWellFormed(agents);
      SelectedWellFormed(settings, ranked, mutation);
      LoggedKeepsShape(log, agents, currentGeneration, currentSimstep, settings.stepsPerGeneration);
      UpdateLog();
      lastRelation := NoRelation;
      SelectAgents(mutation);
      currentGeneration, currentSimstep := currentGeneration + 1, 0;
    }

    /** step (simulation.py:52-68): an interaction step while the generation's budget lasts;
        at the budget a generation boundary (log the population, clear the relation, select)
        unless this was the last generation; after that nothing changes and the answer is false. */
    method Step(d: StepDraws, mutation: seq<real>) returns (more: bool)
      requires Valid() && DrawsInRange(d, |agents|) && MutationDraws(mutation, settings.Children())
      requires currentSimstep == settings.stepsPerGeneration && currentGeneration < settings.numberOfGenerations ==>
        SharesDefined(SortDesc(agents), settings.influenceOfFitness)
      modifies this
      ensures Valid()
      ensures old(currentSimstep) < settings.stepsPerGeneration ==>
        && more
        && currentSimstep == old(currentSimstep) + 1 && currentGeneration == old(currentGeneration)
        && State() == InteractionRound(settings, old(State()), d)
        && log == Logged(old(log), agents)
      ensures old(currentSimstep) == settings.stepsPerGeneration && old(currentGeneration) < settings.numberOfGenerations ==>
        && more
        && currentSimstep == 0 && currentGeneration == old(currentGeneration) + 1
        && agents == Selected(settings, SortDesc(old(agents)), mutation)
        && lastRelation == NoRelation && lastPair == old(lastPair)
        && log == Logged(old(log), old(agents))
      ensures old(currentSimstep) == settings.stepsPerGeneration && old(currentGeneration) >= settings.numberOfGenerations ==>
        !more && unchanged(this)
    {
      if currentSimstep < settings.stepsPerGeneration {
        Interact(d);
        return true;
      } else if currentGeneration < settings.numberOfGenerations {
        Rollover(mutation);
        return true;
      }
      return false;
    }

    /** calculate_generation (simulation.py:71-76): steps until the generation changes or the
        last generation's budget is spent. The interaction steps consume `draws` in order.
        When the shares of the coming boundary sum to zero, select_agents would divide by
        zero; the method then stops before that boundary and answers `raised`. */
    method CalculateGeneration(draws: seq<StepDraws>, mutation: seq<real>) returns (raised: bool)
      requires Valid() && MutationDraws(mutation, settings.Children())
      requires |draws| == settings.stepsPerGeneration - currentSimstep
      requires forall k :: 0 <= k < |draws| ==> DrawsInRange(draws[k], |agents|)
      modifies this
      ensures Valid()
      ensures old(currentGeneration) > settings.numberOfGenerations ==> !raised && unchanged(this)
      ensures old(currentGeneration) <= settings.numberOfGenerations ==>
        var played := Play(settings, old(State()), draws);
        if raised then
          && old(currentGeneration) < settings.numberOfGenerations
          && currentGeneration == old(currentGeneration) && currentSimstep == settings.stepsPerGeneration
          && State() == played
          && !SharesDefined(SortDesc(agents), settings.influenceOfFitness)
        else if old(currentGeneration) < settings.numberOfGenerations then
          && SharesDefined(SortDesc(played.agents), settings.influenceOfFitness)
          && currentGeneration == old(currentGeneration) + 1 && currentSimstep == 0
          && agents == Selected(settings, SortDesc(played.agents), mutation)
          && lastRelation == NoRelation
        else
          && currentGeneration == old(currentGeneration) && currentSimstep == settings.stepsPerGeneration
          && State() == played
    {
      raised := false;
      var thisGeneration := currentGeneration;
      if thisGeneration > settings.numberOfGenerations {
        return;
      }
      ghost var start := State();
      // `while current_generation == this_generation and step()`: every step before the
      // budget is spent interacts and answers true, so the loop first plays out the budget ...
      PlayOut(draws);
      // ... and then makes the one step at the budget, which either starts the next
      // generation or answers false and ends the loop.
      if currentGeneration < settings.numberOfGenerations &&
         !SharesDefined(SortDesc(agents), settings.influenceOfFitness) {
        raised := true;
        return;
      }
      var more := Step(NoDraws, mutation);
    }

    /** The steps of calculate_generation before the budget of the generation is spent: each
        of them takes the interaction branch of step() and answers true. */
    method PlayOut(draws: seq<StepDraws>)
      requires Valid()
      requires |draws| == settings.stepsPerGeneration - currentSimstep
      requires forall k :: 0 <= k < |draws| ==> DrawsInRange(draws[k], |agents|)
      modifies this
      ensures Valid()
      ensures currentGeneration == old(currentGeneration) && currentSimstep == settings.stepsPerGeneration
      ensures State() == Play(settings, old(State()), draws)
    {
      ghost var start := State();
      ghost var s0 := currentSimstep;
      var k := 0;
      while currentSimstep < settings.stepsPerGeneration
        invariant Valid() && currentGeneration == old(currentGeneration)
        invariant k == currentSimstep - s0 && k <= |draws|
        invariant State() == Play(settings, start, draws[..k])
        decreases settings.stepsPerGeneration - currentSimstep
      {
        PlaySnoc(settings, start, draws, k);
        Interact(draws[k]);
        k := k + 1;
      }
      assert draws[..k] == draws;
    }
  }
}
