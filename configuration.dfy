/** The parameter bundle every engine reads (configuration.py:13-22), as an immutable
    record handed to the engine's constructor instead of a mutable class-level singleton. */
module Configuration {

  datatype Settings = Settings(
    numberOfAgents: nat,
    probabilityOfAReputationExchange: real,
    probabilityOfRepercussion: real,
    stepsPerGeneration: nat,
    numberOfGenerations: nat,
    numberOfSurvivingAgents: nat,
    numberOfParents: nat,
    influenceOfFitness: real,
    mutationRate: real)
  {
    /** The ranges the engines rely on: at least two agents (a distinct pair is drawn every
        step), at least one parent (the best parent is read), no more survivors than agents
        (the children count is a difference), an influence that keeps every share in [0, 1],
        and a non-negative mutation rate. */
    predicate Valid() {
      && numberOfAgents >= 2
      && numberOfSurvivingAgents <= numberOfAgents
      && 1 <= numberOfParents
      && 0.0 <= influenceOfFitness <= 1.0
      && 0.0 <= mutationRate
    }

    /** Both probabilities are probabilities. */
    predicate ProbabilitiesInRange() {
      && 0.0 <= probabilityOfAReputationExchange <= 1.0
      && 0.0 <= probabilityOfRepercussion <= 1.0
    }

    /** Number of children born at every generation boundary. */
    function Children(): (c: nat)
      requires Valid()
      ensures numberOfSurvivingAgents + c == numberOfAgents
    {
      numberOfAgents - numberOfSurvivingAgents
    }
  }

  /** The defaults of configuration.py:14-22. */
  const Defaults: Settings := Settings(
    numberOfAgents := 20,
    probabilityOfAReputationExchange := 0.5,
    probabilityOfRepercussion := 0.2,
    stepsPerGeneration := 1000,
    numberOfGenerations := 20,
    numberOfSurvivingAgents := 0,
    numberOfParents := 5,
    influenceOfFitness := 0.0,
    mutationRate := 0.2)

  /** The values experiment_1.py:19-25 writes over the defaults when it is imported. */
  function Experiment1Settings(base: Settings): (s: Settings)
    ensures s.probabilityOfAReputationExchange == base.probabilityOfAReputationExchange
    ensures s.probabilityOfRepercussion == base.probabilityOfRepercussion
    ensures base.Valid() ==> s.Valid()
  {
    base.(numberOfAgents := 100, numberOfParents := 100, numberOfSurvivingAgents := 0,
          stepsPerGeneration := 125, numberOfGenerations := 150,
          influenceOfFitness := 1.0, mutationRate := 0.0)
  }

  /** experiment_3.py imports experiment_1 (which applies its overrides first) and then
      writes its own values (experiment_3.py:15-20). */
  function Experiment3Settings(base: Settings): (s: Settings)
    ensures s.numberOfSurvivingAgents == 0
    ensures base.Valid() ==> s.Valid()
  {
    Experiment1Settings(base).(numberOfAgents := 100, stepsPerGeneration := 300,
                               numberOfGenerations := 2000, influenceOfFitness := 0.99,
                               numberOfParents := 50, mutationRate := 0.1)
  }

  /** The default noise experiment_3.py:22 adds to the settings. */
  const Experiment3Noise: real := 0.5

  /** The defaults are consistent: survivors 0 <= 20 agents, parents 5 in [1, 20],
      probabilities 0.5 and 0.2 in [0, 1], and at least two agents. */
  lemma DefaultsValid()
    ensures Defaults.Valid() && Defaults.ProbabilitiesInRange()
    ensures Defaults.numberOfSurvivingAgents <= Defaults.numberOfAgents
    ensures 1 <= Defaults.numberOfParents <= Defaults.numberOfAgents
    ensures Defaults.numberOfAgents >= 2
    ensures Defaults.Children() == Defaults.numberOfAgents
  {
  }

  /** Both experiments' overrides give valid settings when applied to the defaults. */
  lemma ExperimentSettingsValid()
    ensures Experiment1Settings(Defaults).Valid()
    ensures Experiment3Settings(Defaults).Valid()
    ensures Experiment1Settings(Defaults).influenceOfFitness == 1.0
    ensures Experiment3Settings(Defaults).Children() == 100
  {
  }
}
