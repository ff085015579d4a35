/** The agent record shared by every engine variant, and the small numeric helpers
    (reputation clamping, ceiling, clipping) that the engines apply to its fields. */
module Agents {

  const MinReputation: int := -5
  const MaxReputation: int := 5

  /** The evolvable trait fields; each engine variant uses exactly one shape. */
  datatype Traits =
    | Deceiver(deceptionProbability: real)       // simulation.py, simulation_numpy.py
    | Strategist(strategy: int)                  // experiment_1.py
    | NoisyStrategist(strategy: int, noise: real) // experiment_3.py

  /** One agent: its running payoff, its reputation and its traits. */
  datatype Agent = Agent(value: real, reputation: int, traits: Traits)

  predicate ReputationInRange(r: int) {
    MinReputation <= r <= MaxReputation
  }

  /** `min(r + 1, 5)`: the reputation a cooperating agent ends with. */
  function Raise(r: int): (up: int)
    ensures up <= MaxReputation
    ensures r < MaxReputation ==> up == r + 1
    ensures ReputationInRange(r) ==> ReputationInRange(up) && r <= up
  {
    if r + 1 < MaxReputation then r + 1 else MaxReputation
  }

  /** `max(r - 1, -5)`: the reputation of a defecting or badmouthed agent. */
  function Lower(r: int): (down: int)
    ensures MinReputation <= down
    ensures MinReputation < r ==> down == r - 1
    ensures ReputationInRange(r) ==> ReputationInRange(down) && down <= r
  {
    if r - 1 > MinReputation then r - 1 else MinReputation
  }

  /** Value and reputation go back to zero; the traits are kept. */
  function Reset(a: Agent): Agent {
    a.(value := 0.0, reputation := 0)
  }

  /** reset_agents: every agent of the population reset. */
  function ResetAll(s: seq<Agent>): (r: seq<Agent>)
    ensures |r| == |s|
  {
    seq(|s|, k requires 0 <= k < |s| => Reset(s[k]))
  }

  /** `ceil(x)`, written with the floor Dafny provides. */
  function Ceil(x: real): (n: int)
    ensures x <= n as real < x + 1.0
  {
    -((-x).Floor)
  }

  /** `min(hi, max(lo, x))`, which is also what `np.clip` computes. */
  function Clip(x: real, lo: real, hi: real): (y: real)
    requires lo <= hi
    ensures lo <= y <= hi
    ensures lo <= x <= hi ==> y == x
    ensures x < lo ==> y == lo
    ensures hi < x ==> y == hi
  {
    if x < lo then lo else if hi < x then hi else x
  }
}
