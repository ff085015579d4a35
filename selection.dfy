/** The arithmetic of select_agents that both engines share (simulation.py:87-127,
    simulation_numpy.py:91-118): ranking by fitness, fitness normalisation, reproductive
    shares, the ceil-then-truncate allocation of children to parents, and `np.repeat`. */
module Selection {
  import opened Agents

  // ---------------------------------------------------------------- ranking

  /** Non-increasing by value, the fitness of both engines: each agent is at least as fit
      as the next one. */
  predicate Descending(s: seq<Agent>) {
    DescendingFrom(s, 0)
  }

  /** From position `k` on, each agent is at least as fit as the next one. */
  predicate DescendingFrom(s: seq<Agent>, k: nat)
    decreases |s| - k
  {
    k + 1 >= |s| || (s[k].value >= s[k + 1].value && DescendingFrom(s, k + 1))
  }

  /** In a descending sequence every agent is at least as fit as every later one. */
  lemma {:induction false} DescendingFromPairs(s: seq<Agent>, k: nat, i: nat, j: nat)
    requires DescendingFrom(s, k) && k <= i <= j < |s|
    ensures s[i].value >= s[j].value
    decreases |s| - k
  {
    if k < j {
      DescendingFromPairs(s, k + 1, if i == k then k + 1 else i, j);
    }
  }

  lemma DescendingPairs(s: seq<Agent>)
    requires Descending(s)
    ensures forall i, j :: 0 <= i <= j < |s| ==> s[i].value >= s[j].value
  {
    forall i, j | 0 <= i <= j < |s| ensures s[i].value >= s[j].value {
      DescendingFromPairs(s, 0, i, j);
    }
  }

  /** Every agent of a descending sequence lies between its first and its last. */
  lemma DescendingBounds(s: seq<Agent>, i: nat)
    requires Descending(s) && i < |s|
    ensures s[|s| - 1].value <= s[i].value <= s[0].value
  {
    DescendingFromPairs(s, 0, 0, i);
    DescendingFromPairs(s, 0, i, |s| - 1);
  }

  /** A sequence that starts with `x` descends when `x` is at least as fit as the head of
      the descending rest. */
  lemma {:induction false} DescendingCons(x: Agent, s: seq<Agent>, k: nat)
    requires k <= |s| && DescendingFrom(s, k)
    ensures DescendingFrom([x] + s, k + 1)
    decreases |s| - k
  {
    var t := [x] + s;
    if k + 1 < |s| {
      DescendingCons(x, s, k + 1);
      assert t[k + 1] == s[k] && t[k + 2] == s[k + 1];
    }
  }

  lemma DescendingPrepend(x: Agent, s: seq<Agent>)
    requires Descending(s) && (s == [] || x.value >= s[0].value)
    ensures Descending([x] + s)
  {
    DescendingCons(x, s, 0);
  }

  /** Dropping the head keeps a sequence descending. */
  lemma {:induction false} DescendingTail(s: seq<Agent>, k: nat)
    requires 1 <= k <= |s| && DescendingFrom(s, k)
    ensures DescendingFrom(s[1..], k - 1)
    decreases |s| - k
  {
    if k + 1 < |s| {
      DescendingTail(s, k + 1);
      assert s[1..][k - 1] == s[k] && s[1..][k] == s[k + 1];
    }
  }

  /** `r` is `s` sorted by value, fittest first; the order among equal values is left open. */
  predicate IsRanking(r: seq<Agent>, s: seq<Agent>) {
    multiset(r) == multiset(s) && Descending(r)
  }

  /** Inserts `x` after every element at least as fit, which keeps equal values in their
      original order. */
  function Insert(x: Agent, s: seq<Agent>): (r: seq<Agent>)
    ensures |r| == |s| + 1
    ensures r[0] == x || (|s| > 0 && r[0] == s[0])
    ensures multiset(r) == multiset(s) + multiset{x}
    ensures Descending(s) ==> Descending(r)
  {
    if s == [] then [x]
    else if s[0].value >= x.value then
      assert Descending(s) ==> Descending(s[1..]) by {
        if Descending(s) && |s| > 1 {
          DescendingTail(s, 1);
        }
      }
      var rest := Insert(x, s[1..]);
      assert s == [s[0]] + s[1..];
      assert Descending(s) ==> Descending([s[0]] + rest) by {
        if Descending(s) {
          DescendingPrepend(s[0], rest);
        }
      }
      [s[0]] + rest
    else
      assert Descending(s) ==> Descending([x] + s) by {
        if Descending(s) {
          DescendingPrepend(x, s);
        }
      }
      [x] + s
  }

  /** `list.sort(key=fitness, reverse=True)` (simulation.py:88): a stable insertion sort,
      fittest first. */
  function SortDesc(s: seq<Agent>): (r: seq<Agent>)
    ensures |r| == |s|
    ensures Descending(r)
  {
    if s == [] then [] else Insert(s[|s| - 1], SortDesc(s[..|s| - 1]))
  }

  /** The sort permutes the population. */
  lemma {:induction false} SortDescIsRanking(s: seq<Agent>)
    ensures IsRanking(SortDesc(s), s)
  {
    if s != [] {
      var n := |s| - 1;
      assert s == s[..n] + [s[n]];
      SortDescIsRanking(s[..n]);
    }
  }

  /** The agents of fitness `v`, in the order they appear. */
  function WithValue(s: seq<Agent>, v: real): (r: seq<Agent>)
    ensures |r| <= |s|
  {
    if s == [] then []
    else if s[0].value == v then [s[0]] + WithValue(s[1..], v)
    else WithValue(s[1..], v)
  }

  lemma {:induction false} WithValueAppend(s: seq<Agent>, t: seq<Agent>, v: real)
    ensures WithValue(s + t, v) == WithValue(s, v) + WithValue(t, v)
  {
    if s == [] {
      assert s + t == t;
    } else {
      assert (s + t)[0] == s[0] && (s + t)[1..] == s[1..] + t;
      WithValueAppend(s[1..], t, v);
    }
  }

  lemma WithValueSnoc(s: seq<Agent>, v: real)
    requires s != []
    ensures WithValue(s, v) == WithValue(s[..|s| - 1], v) + WithValue([s[|s| - 1]], v)
  {
    var n := |s| - 1;
    assert s == s[..n] + [s[n]];
    WithValueAppend(s[..n], [s[n]], v);
  }

  lemma {:induction false} WithValueNone(s: seq<Agent>, v: real)
    requires forall i :: 0 <= i < |s| ==> s[i].value != v
    ensures WithValue(s, v) == []
  {
    if s != [] {
      WithValueNone(s[1..], v);
    }
  }

  lemma {:induction false} WithValueCons(x: Agent, t: seq<Agent>, v: real)
    ensures WithValue([x] + t, v) == WithValue([x], v) + WithValue(t, v)
  {
    assert ([x] + t)[0] == x && ([x] + t)[1..] == t;
    assert [x][1..] == [];
  }

  /** Inserting `x` into a descending sequence puts it after every agent of its fitness. */
  lemma {:induction false} InsertStable(x: Agent, s: seq<Agent>, v: real)
    requires Descending(s)
    ensures WithValue(Insert(x, s), v) == WithValue(s, v) + WithValue([x], v)
    decreases |s|, 1
  {
    if s == [] {
    } else if s[0].value >= x.value {
      if |s| > 1 {
        DescendingTail(s, 1);
      }
      InsertBehindHead(x, s);
      BehindHeadStable(x, s, v);
    } else {
      assert Insert(x, s) == [x] + s;
      FitterFirstStable(x, s, v);
    }
  }

  /** An agent no fitter than the head is inserted into the tail. */
  lemma InsertBehindHead(x: Agent, s: seq<Agent>)
    requires s != [] && s[0].value >= x.value
    ensures Insert(x, s) == [s[0]] + Insert(x, s[1..])
  {
  }

  lemma {:induction false} BehindHeadStable(x: Agent, s: seq<Agent>, v: real)
    requires s != [] && Descending(s[1..]) && Insert(x, s) == [s[0]] + Insert(x, s[1..])
    ensures WithValue(Insert(x, s), v) == WithValue(s, v) + WithValue([x], v)
    decreases |s|, 0
  {
    var rest := Insert(x, s[1..]);
    var h, w := WithValue([s[0]], v), WithValue([x], v);
    InsertStable(x, s[1..], v);
    WithValueCons(s[0], rest, v);
    WithValueHead(s, v);
    calc {
      WithValue(Insert(x, s), v);
      h + WithValue(rest, v);
      h + (WithValue(s[1..], v) + w);
      (h + WithValue(s[1..], v)) + w;
      WithValue(s, v) + w;
    }
  }

  lemma {:induction false} WithValueHead(s: seq<Agent>, v: real)
    requires s != []
    ensures WithValue(s, v) == WithValue([s[0]], v) + WithValue(s[1..], v)
  {
    assert [s[0]][1..] == [];
  }

  /** An agent fitter than all of a descending sequence can go first or last alike. */
  lemma FitterFirstStable(x: Agent, s: seq<Agent>, v: real)
    requires Descending(s) && s != [] && s[0].value < x.value
    ensures WithValue([x] + s, v) == WithValue(s, v) + WithValue([x], v)
  {
    DescendingPairs(s);
    WithValueCons(x, s, v);
    if x.value == v {
      WithValueNone(s, v);
      assert WithValue([x], v) == [x];
    } else {
      assert WithValue([x], v) == [];
    }
  }

  /** The sort is stable, as Python's is: the agents of any one fitness keep the order they
      had in the population. */
  lemma {:induction false} SortDescStable(s: seq<Agent>, v: real)
    ensures WithValue(SortDesc(s), v) == WithValue(s, v)
  {
    if s != [] {
      var n := |s| - 1;
      var sorted := SortDesc(s[..n]);
      SortDescStable(s[..n], v);
      InsertStable(s[n], sorted, v);
      WithValueSnoc(s, v);
      calc {
        WithValue(SortDesc(s), v);
        WithValue(Insert(s[n], sorted), v);
        WithValue(sorted, v) + WithValue([s[n]], v);
        WithValue(s[..n], v) + WithValue([s[n]], v);
        WithValue(s, v);
      }
    }
  }

  /** The first and last agents of a ranking are the fittest and the least fit of the
      population, so they are equally fit exactly when all agents are. */
  lemma {:induction false} RankingExtremes(r: seq<Agent>, s: seq<Agent>)
    requires IsRanking(r, s) && |s| >= 1
    ensures |r| == |s|
    ensures forall j :: 0 <= j < |s| ==> r[|r| - 1].value <= s[j].value <= r[0].value
    ensures r[0].value == r[|r| - 1].value <==> forall i, j :: 0 <= i < |s| && 0 <= j < |s| ==> s[i].value == s[j].value
  {
    assert |r| == |multiset(r)| == |multiset(s)| == |s|;
    DescendingPairs(r);
    forall j | 0 <= j < |s| ensures r[|r| - 1].value <= s[j].value <= r[0].value {
      assert s[j] in multiset(s);
      assert s[j] in multiset(r);
      var i :| 0 <= i < |r| && r[i] == s[j];
    }
    if r[0].value == r[|r| - 1].value {
      forall i, j | 0 <= i < |s| && 0 <= j < |s| ensures s[i].value == s[j].value {
      }
    } else {
      assert r[0] in multiset(s) && r[|r| - 1] in multiset(s);
      var i :| 0 <= i < |s| && s[i] == r[0];
      var j :| 0 <= j < |s| && s[j] == r[|r| - 1];
      assert s[i].value != s[j].value;
    }
  }

  // ---------------------------------------------------------------- shares

  /** `1 / (max - min)`, or 0 when all agents are equally fit. */
  function NormFactor(maxFitness: real, minFitness: real): (k: real)
    ensures k >= 0.0
    ensures maxFitness > minFitness ==> k * (maxFitness - minFitness) == 1.0
    ensures maxFitness <= minFitness ==> k == 0.0
  {
    if maxFitness > minFitness then 1.0 / (maxFitness - minFitness) else 0.0
  }

  /** `(1 - influence) + normalized_fitness * influence`. */
  function Share(influence: real, normalizedFitness: real): real {
    (1.0 - influence) + normalizedFitness * influence
  }

  /** The share of every parent, in parent order. */
  function Shares(parents: seq<Agent>, minFitness: real, maxFitness: real, influence: real): (shares: seq<real>)
    ensures |shares| == |parents|
  {
    seq(|parents|, i requires 0 <= i < |parents| =>
      Share(influence, NormFactor(maxFitness, minFitness) * (parents[i].value - minFitness)))
  }

  /** A normalised fitness lies in [0, 1], and so every share lies in [1 - influence, 1]. */
  lemma {:induction false} ShareBounds(influence: real, minFitness: real, maxFitness: real, fitness: real)
    requires 0.0 <= influence <= 1.0 && minFitness <= fitness <= maxFitness
    ensures var n := NormFactor(maxFitness, minFitness) * (fitness - minFitness);
      && 0.0 <= n <= 1.0
      && 1.0 - influence <= Share(influence, n) <= 1.0
  {
    var k := NormFactor(maxFitness, minFitness);
    var n := k * (fitness - minFitness);
    if maxFitness > minFitness {
      ScaleMonotone(k, fitness - minFitness, maxFitness - minFitness);
    }
    assert 0.0 <= n <= 1.0;
    ScaleMonotone(influence, n, 1.0);
    assert n * influence == influence * n;
  }

  lemma ScaleMonotone(k: real, a: real, b: real)
    requires 0.0 <= k && 0.0 <= a <= b
    ensures 0.0 <= k * a <= k * b
  {
  }

  function Sum(s: seq<real>): real {
    if s == [] then 0.0 else Sum(s[..|s| - 1]) + s[|s| - 1]
  }

  /** A sum of non-negative reals is at least every one of them, and is zero exactly when
      all of them are. */
  lemma {:induction false} SumOfNonnegative(s: seq<real>)
    requires forall i :: 0 <= i < |s| ==> s[i] >= 0.0
    ensures forall i :: 0 <= i < |s| ==> Sum(s) >= s[i] >= 0.0
    ensures Sum(s) == 0.0 <==> forall i :: 0 <= i < |s| ==> s[i] == 0.0
  {
    if s != [] {
      var n := |s| - 1;
      SumOfNonnegative(s[..n]);
      assert forall i :: 0 <= i < n ==> s[..n][i] == s[i];
    }
  }

  /** A sum of `|s|` equal terms. */
  lemma {:induction false} SumOfEqual(s: seq<real>, c: real)
    requires forall i :: 0 <= i < |s| ==> s[i] == c
    ensures Sum(s) == |s| as real * c
  {
    if s != [] {
      var n := |s| - 1;
      SumOfEqual(s[..n], c);
    }
  }

  /** The parents are the first `numberOfParents` of the ranking (slicing stops at its end). */
  function Parents(ranked: seq<Agent>, numberOfParents: nat): (parents: seq<Agent>)
    ensures |parents| <= |ranked| && |parents| <= numberOfParents
    ensures numberOfParents <= |ranked| ==> |parents| == numberOfParents
    ensures parents == ranked[..|parents|]
  {
    ranked[..if numberOfParents < |ranked| then numberOfParents else |ranked|]
  }

  /** The shares of select_agents: min and max fitness are those of the last and the first
      agent of the ranking (simulation.py:95-110, simulation_numpy.py:98-107). */
  function RankedShares(ranked: seq<Agent>, numberOfParents: nat, influence: real): (shares: seq<real>)
    requires |ranked| >= 1
    ensures |shares| == |Parents(ranked, numberOfParents)|
  {
    Shares(Parents(ranked, numberOfParents), ranked[|ranked| - 1].value, ranked[0].value, influence)
  }

  /** Share `i` of a ranking, unfolded. */
  lemma RankedShareAt(ranked: seq<Agent>, numberOfParents: nat, influence: real, i: nat)
    requires |ranked| >= 1 && i < |Parents(ranked, numberOfParents)|
    ensures RankedShares(ranked, numberOfParents, influence)[i] ==
      Share(influence, NormFactor(ranked[0].value, ranked[|ranked| - 1].value) * (ranked[i].value - ranked[|ranked| - 1].value))
  {
    var parents := Parents(ranked, numberOfParents);
    var minF, maxF := ranked[|ranked| - 1].value, ranked[0].value;
    assert RankedShares(ranked, numberOfParents, influence) == Shares(parents, minF, maxF, influence);
    assert Shares(parents, minF, maxF, influence)[i] == Share(influence, NormFactor(maxF, minF) * (parents[i].value - minF));
    assert parents[i] == ranked[i];
  }

  /** Selection divides by the sum of the shares; this says when that sum is not zero. */
  predicate SharesDefined(ranked: seq<Agent>, influence: real)
    requires |ranked| >= 1
  {
    influence < 1.0 || ranked[0].value > ranked[|ranked| - 1].value
  }

  /** For a ranking: every share lies in [1 - influence, 1], and the sum of the shares is
      zero exactly when the influence is 1 and all agents are equally fit — the one case in
      which both engines divide by zero. */
  lemma {:induction false} RankedSharesSum(ranked: seq<Agent>, numberOfParents: nat, influence: real)
    requires |ranked| >= 1 && Descending(ranked) && numberOfParents >= 1
    requires 0.0 <= influence <= 1.0
    ensures var shares := RankedShares(ranked, numberOfParents, influence);
      && (forall i :: 0 <= i < |shares| ==> 1.0 - influence <= shares[i] <= 1.0)
      && Sum(shares) >= 0.0
      && (Sum(shares) > 0.0 <==> SharesDefined(ranked, influence))
  {
    var minF, maxF := ranked[|ranked| - 1].value, ranked[0].value;
    var shares := RankedShares(ranked, numberOfParents, influence);
    forall i | 0 <= i < |shares| ensures 1.0 - influence <= shares[i] <= 1.0 {
      RankedShareBounds(ranked, numberOfParents, influence, i);
    }
    SumOfNonnegative(shares);
    DescendingBounds(ranked, 0);
    if maxF > minF {
      FittestShareIsOne(ranked, numberOfParents, influence);
    } else {
      EqualFitnessEqualShares(ranked, numberOfParents, influence);
    }
  }

  lemma RankedShareBounds(ranked: seq<Agent>, numberOfParents: nat, influence: real, i: nat)
    requires |ranked| >= 1 && Descending(ranked) && i < |Parents(ranked, numberOfParents)|
    requires 0.0 <= influence <= 1.0
    ensures 1.0 - influence <= RankedShares(ranked, numberOfParents, influence)[i] <= 1.0
  {
    assert i < |ranked|;
    DescendingBounds(ranked, i);
    var minF, maxF, fitness := ranked[|ranked| - 1].value, ranked[0].value, ranked[i].value;
    ShareBounds(influence, minF, maxF, fitness);
    RankedShareAt(ranked, numberOfParents, influence, i);
  }

  /** The fittest parent's share is 1 whenever the population is not all equally fit. */
  lemma FittestShareIsOne(ranked: seq<Agent>, numberOfParents: nat, influence: real)
    requires |ranked| >= 1 && numberOfParents >= 1 && ranked[0].value > ranked[|ranked| - 1].value
    ensures RankedShares(ranked, numberOfParents, influence)[0] == 1.0
  {
    var minF, maxF := ranked[|ranked| - 1].value, ranked[0].value;
    RankedShareAt(ranked, numberOfParents, influence, 0);
    assert NormFactor(maxF, minF) * (maxF - minF) == 1.0;
  }

  /** With no fitness influence every parent has share 1, so the shares sum to the number of parents. */
  lemma InfluenceZeroShares(ranked: seq<Agent>, numberOfParents: nat)
    requires |ranked| >= 1
    ensures var shares := RankedShares(ranked, numberOfParents, 0.0);
      (forall i :: 0 <= i < |shares| ==> shares[i] == 1.0) && Sum(shares) == |shares| as real
  {
    var shares := RankedShares(ranked, numberOfParents, 0.0);
    forall i | 0 <= i < |shares| ensures shares[i] == 1.0 {
      RankedShareAt(ranked, numberOfParents, 0.0, i);
    }
    SumOfEqual(shares, 1.0);
  }

  /** With full fitness influence every share is the normalised fitness, and the fittest
      parent's share is 1 whenever the population is not all equally fit. */
  lemma InfluenceOneShares(ranked: seq<Agent>, numberOfParents: nat)
    requires |ranked| >= 1 && numberOfParents >= 1
    ensures var shares := RankedShares(ranked, numberOfParents, 1.0);
      && (forall i :: 0 <= i < |shares| ==>
            shares[i] == NormFactor(ranked[0].value, ranked[|ranked| - 1].value) * (ranked[i].value - ranked[|ranked| - 1].value))
      && (ranked[0].value > ranked[|ranked| - 1].value ==> shares[0] == 1.0)
  {
    var shares := RankedShares(ranked, numberOfParents, 1.0);
    forall i | 0 <= i < |shares|
      ensures shares[i] == NormFactor(ranked[0].value, ranked[|ranked| - 1].value) * (ranked[i].value - ranked[|ranked| - 1].value)
    {
      RankedShareAt(ranked, numberOfParents, 1.0, i);
    }
    if ranked[0].value > ranked[|ranked| - 1].value {
      FittestShareIsOne(ranked, numberOfParents, 1.0);
    }
  }

  /** When all agents are equally fit, every parent receives the same share, whatever the influence. */
  lemma EqualFitnessEqualShares(ranked: seq<Agent>, numberOfParents: nat, influence: real)
    requires |ranked| >= 1 && ranked[0].value == ranked[|ranked| - 1].value
    ensures var shares := RankedShares(ranked, numberOfParents, influence);
      forall i :: 0 <= i < |shares| ==> shares[i] == 1.0 - influence
  {
    var shares := RankedShares(ranked, numberOfParents, influence);
    forall i | 0 <= i < |shares| ensures shares[i] == 1.0 - influence {
      RankedShareAt(ranked, numberOfParents, influence, i);
    }
  }

  // ---------------------------------------------------------------- allocation

  function Total(counts: seq<nat>): nat {
    if counts == [] then 0 else Total(counts[..|counts| - 1]) + counts[|counts| - 1]
  }

  /** `ceil(m * share)` for every parent, where `m` is the number of children divided by
      the sum of the shares (simulation_numpy.py:115-116; simulation.py:120 computes
      `ceil(children * share / sum)`, the same real number). */
  function ChildCounts(m: real, shares: seq<real>): (counts: seq<nat>)
    requires m >= 0.0 && forall i :: 0 <= i < |shares| ==> shares[i] >= 0.0
    ensures |counts| == |shares|
    ensures forall i :: 0 <= i < |shares| ==> counts[i] == CountOf(m, shares[i])
  {
    seq(|shares|, i requires 0 <= i < |shares| => CountOf(m, shares[i]))
  }

  function CountOf(m: real, share: real): (c: nat)
    requires m >= 0.0 && share >= 0.0
    ensures c as real >= m * share
  {
    assert m * share >= 0.0;
    Ceil(m * share)
  }

  lemma NonnegativeRatio(children: nat, sum: real)
    requires sum > 0.0
    ensures children as real / sum >= 0.0
  {
  }

  lemma RatioTimesSum(children: nat, sum: real)
    requires sum > 0.0
    ensures (children as real / sum) * sum == children as real
  {
  }

  /** `ceil(children * share / sum)` is the count of a share scaled by `children / sum`. */
  lemma ScaledShare(children: nat, share: real, sum: real, m: real)
    requires sum > 0.0 && m * sum == children as real
    ensures children as real * share / sum == m * share
  {
    assert children as real * share == (m * share) * sum;
  }

  /** Rounding every count up never loses a child: the counts add up to at least `m` times the sum. */
  lemma {:induction false} ChildCountsCover(m: real, shares: seq<real>)
    requires m >= 0.0 && forall i :: 0 <= i < |shares| ==> shares[i] >= 0.0
    ensures Total(ChildCounts(m, shares)) as real >= m * Sum(shares)
  {
    if shares != [] {
      var n := |shares| - 1;
      var prefix := shares[..n];
      ChildCountsCover(m, prefix);
      assert ChildCounts(m, shares)[..n] == ChildCounts(m, prefix);
      assert ChildCounts(m, shares)[n] as real >= m * shares[n];
      assert m * Sum(shares) == m * Sum(prefix) + m * shares[n];
    }
  }

  /** `np.repeat(parents, counts)`: each parent, in order, as many times as its count. */
  function Repeat(parents: seq<Agent>, counts: seq<nat>): (r: seq<Agent>)
    requires |counts| == |parents|
    ensures |r| == Total(counts)
  {
    if parents == [] then []
    else
      var n := |parents| - 1;
      Repeat(parents[..n], counts[..n]) + seq(counts[n], _ => parents[n])
  }

  /** Repetition only ever copies parents. */
  lemma {:induction false} RepeatFromParents(parents: seq<Agent>, counts: seq<nat>)
    requires |counts| == |parents|
    ensures forall k :: 0 <= k < |Repeat(parents, counts)| ==> Repeat(parents, counts)[k] in parents
  {
    if parents != [] {
      var n := |parents| - 1;
      var front := Repeat(parents[..n], counts[..n]);
      RepeatFromParents(parents[..n], counts[..n]);
      forall k | 0 <= k < |Repeat(parents, counts)| ensures Repeat(parents, counts)[k] in parents {
        if k < |front| {
          assert front[k] in parents[..n];
        } else {
          assert Repeat(parents, counts)[k] == parents[n];
        }
      }
    }
  }

  /** Repeating one parent more appends its block. */
  lemma RepeatSnoc(parents: seq<Agent>, counts: seq<nat>, i: nat)
    requires |counts| == |parents| && i < |parents|
    ensures Repeat(parents[..i + 1], counts[..i + 1]) ==
            Repeat(parents[..i], counts[..i]) + seq(counts[i], _ => parents[i])
  {
    assert parents[..i + 1][..i] == parents[..i];
    assert counts[..i + 1][..i] == counts[..i];
  }

  /** The copies of parent `i` fill exactly the positions from the sum of the earlier counts
      up to that sum plus its own count: repetition keeps parent order. */
  lemma {:induction false} RepeatBlock(parents: seq<Agent>, counts: seq<nat>, i: nat, k: nat)
    requires |counts| == |parents| && i < |parents|
    requires Total(counts[..i]) <= k < Total(counts[..i]) + counts[i]
    ensures k < |Repeat(parents, counts)| && Repeat(parents, counts)[k] == parents[i]
  {
    var n := |parents| - 1;
    assert counts[..n + 1] == counts;
    TotalPrefixMonotone(counts, i + 1, n + 1);
    assert counts[..i + 1][..i] == counts[..i];
    if i < n {
      assert counts[..n][..i] == counts[..i];
      assert counts[..n][..i + 1] == counts[..i + 1];
      assert parents[..n][i] == parents[i] && counts[..n][i] == counts[i];
      RepeatBlock(parents[..n], counts[..n], i, k);
    }
  }

  lemma {:induction false} TotalPrefixMonotone(counts: seq<nat>, i: nat, j: nat)
    requires i <= j <= |counts|
    ensures Total(counts[..i]) <= Total(counts[..j])
    decreases j - i
  {
    if i < j {
      assert counts[..j][..j - 1] == counts[..j - 1];
      TotalPrefixMonotone(counts, i, j - 1);
    }
  }

  /** The first `c` elements, or all of them when there are fewer: a Python slice `[:c]`. */
  function Take(s: seq<Agent>, c: nat): (r: seq<Agent>)
    ensures |r| == if |s| <= c then |s| else c
    ensures r == s[..|r|]
  {
    if |s| <= c then s else s[..c]
  }

  /** The children of select_agents: the parents repeated by their ceil counts, truncated
      to exactly `children` agents (simulation.py:118-126, simulation_numpy.py:114-118). */
  function Offspring(ranked: seq<Agent>, numberOfParents: nat, influence: real, children: nat): (born: seq<Agent>)
    requires |ranked| >= 1 && Descending(ranked) && numberOfParents >= 1
    requires 0.0 <= influence <= 1.0 && SharesDefined(ranked, influence)
    ensures |born| == children
  {
    var shares := RankedShares(ranked, numberOfParents, influence);
    OffspringCoverage(ranked, numberOfParents, influence, children);
    Take(Repeat(Parents(ranked, numberOfParents), ChildCounts(children as real / Sum(shares), shares)), children)
  }

  /** Every child is a copy of one of the parents. */
  lemma OffspringFromParents(ranked: seq<Agent>, numberOfParents: nat, influence: real, children: nat)
    requires |ranked| >= 1 && Descending(ranked) && numberOfParents >= 1
    requires 0.0 <= influence <= 1.0 && SharesDefined(ranked, influence)
    ensures forall k :: 0 <= k < children ==>
      Offspring(ranked, numberOfParents, influence, children)[k] in Parents(ranked, numberOfParents)
  {
    var shares := RankedShares(ranked, numberOfParents, influence);
    OffspringCoverage(ranked, numberOfParents, influence, children);
    RepeatFromParents(Parents(ranked, numberOfParents), ChildCounts(children as real / Sum(shares), shares));
  }

  /** The ceil counts of select_agents are defined for a ranking whose shares do not sum to
      zero, and together they cover all the children to be born. */
  lemma OffspringCoverage(ranked: seq<Agent>, numberOfParents: nat, influence: real, children: nat)
    requires |ranked| >= 1 && Descending(ranked) && numberOfParents >= 1
    requires 0.0 <= influence <= 1.0 && SharesDefined(ranked, influence)
    ensures var shares := RankedShares(ranked, numberOfParents, influence);
      && Sum(shares) > 0.0
      && (forall i :: 0 <= i < |shares| ==> shares[i] >= 0.0)
      && children as real / Sum(shares) >= 0.0
      && Total(ChildCounts(children as real / Sum(shares), shares)) >= children
  {
    var shares := RankedShares(ranked, numberOfParents, influence);
    RankedSharesSum(ranked, numberOfParents, influence);
    NonnegativeRatio(children, Sum(shares));
    RatioTimesSum(children, Sum(shares));
    CountsCoverChildren(children, children as real / Sum(shares), shares);
  }

  /** The offspring are the first `children` entries of the parents repeated by their
      counts, for a scale factor `m` with `m * sum == children`. */
  lemma OffspringByFactor(ranked: seq<Agent>, numberOfParents: nat, influence: real, children: nat, sum: real)
    returns (m: real)
    requires |ranked| >= 1 && Descending(ranked) && numberOfParents >= 1
    requires 0.0 <= influence <= 1.0 && SharesDefined(ranked, influence)
    requires sum == Sum(RankedShares(ranked, numberOfParents, influence))
    ensures var shares := RankedShares(ranked, numberOfParents, influence);
      && sum > 0.0
      && (forall i :: 0 <= i < |shares| ==> shares[i] >= 0.0)
      && m >= 0.0 && m * sum == children as real
      && Offspring(ranked, numberOfParents, influence, children)
         == Take(Repeat(Parents(ranked, numberOfParents), ChildCounts(m, shares)), children)
  {
    OffspringUnfolded(ranked, numberOfParents, influence, children);
    m := children as real / sum;
    FactorTimesSum(m, children, sum);
  }

  lemma FactorTimesSum(m: real, children: nat, sum: real)
    requires sum > 0.0 && m == children as real / sum
    ensures m * sum == children as real
  {
    RatioTimesSum(children, sum);
  }

  lemma OffspringUnfolded(ranked: seq<Agent>, numberOfParents: nat, influence: real, children: nat)
    requires |ranked| >= 1 && Descending(ranked) && numberOfParents >= 1
    requires 0.0 <= influence <= 1.0 && SharesDefined(ranked, influence)
    ensures var shares := RankedShares(ranked, numberOfParents, influence);
      && Sum(shares) > 0.0
      && (forall i :: 0 <= i < |shares| ==> shares[i] >= 0.0)
      && children as real / Sum(shares) >= 0.0
      && Offspring(ranked, numberOfParents, influence, children)
         == Take(Repeat(Parents(ranked, numberOfParents), ChildCounts(children as real / Sum(shares), shares)), children)
  {
    OffspringCoverage(ranked, numberOfParents, influence, children);
  }

  /** Counts scaled by any factor `m` with `m * sum == children` add up to at least `children`. */
  lemma CountsCoverChildren(children: nat, m: real, shares: seq<real>)
    requires m >= 0.0 && forall i :: 0 <= i < |shares| ==> shares[i] >= 0.0
    requires m * Sum(shares) == children as real
    ensures Total(ChildCounts(m, shares)) >= children
  {
    ChildCountsCover(m, shares);
  }

}
