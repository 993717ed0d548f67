/**
 * Risk aggregation: the four sub-scores (static analysis, behaviour, source,
 * community reputation) are added and the total is capped at 100. Python
 * integers are unbounded, so `int` is their exact model; there is no lower
 * cap, so negative sub-scores pass straight through.
 */
module RiskScore {

  const MaxRisk: int := 100

  /** `calculate_risk(static, behavior, source, community)`. */
  function CalculateRisk(staticScore: int, behaviorScore: int, sourceScore: int, communityScore: int): (r: int)
    ensures r <= MaxRisk
    ensures staticScore + behaviorScore + sourceScore + communityScore <= MaxRisk ==>
              r == staticScore + behaviorScore + sourceScore + communityScore
    ensures staticScore + behaviorScore + sourceScore + communityScore >= MaxRisk ==> r == MaxRisk
  {
    var total := staticScore + behaviorScore + sourceScore + communityScore;
    if total < MaxRisk then total else MaxRisk
  }

  /** With non-negative sub-scores the risk lies in 0..100. */
  lemma CalculateRiskInRange(staticScore: int, behaviorScore: int, sourceScore: int, communityScore: int)
    requires staticScore >= 0 && behaviorScore >= 0 && sourceScore >= 0 && communityScore >= 0
    ensures 0 <= CalculateRisk(staticScore, behaviorScore, sourceScore, communityScore) <= MaxRisk
  {
  }

  /** Raising any one sub-score never lowers the risk. */
  lemma CalculateRiskMonotone(
    static1: int, behavior1: int, source1: int, community1: int,
    static2: int, behavior2: int, source2: int, community2: int)
    requires static1 <= static2 && behavior1 <= behavior2
    requires source1 <= source2 && community1 <= community2
    ensures CalculateRisk(static1, behavior1, source1, community1)
              <= CalculateRisk(static2, behavior2, source2, community2)
  {
  }

  /** Sum of a sequence of scores. */
  function Total(xs: seq<int>): int
  {
    if xs == [] then 0 else xs[0] + Total(xs[1..])
  }

  /** Taking out the element at `i` lowers the total by exactly that element. */
  lemma {:induction false} TotalRemove(xs: seq<int>, i: nat)
    requires i < |xs|
    ensures Total(xs) == xs[i] + Total(xs[..i] + xs[i + 1..])
  {
    if i > 0 {
      TotalRemove(xs[1..], i - 1);
      assert xs[1..][..i - 1] + xs[1..][i..] == (xs[..i] + xs[i + 1..])[1..];
    } else {
      assert xs[..i] + xs[i + 1..] == xs[1..];
    }
  }

  /** The total does not depend on the order of the scores. */
  lemma {:induction false} TotalPermutation(xs: seq<int>, ys: seq<int>)
    requires multiset(xs) == multiset(ys)
    ensures Total(xs) == Total(ys)
  {
    if xs == [] {
      assert |ys| == |multiset(ys)| == 0;
    } else {
      assert xs[0] in multiset(ys);
      var i :| 0 <= i < |ys| && ys[i] == xs[0];
      TotalRemove(ys, i);
      var rest := ys[..i] + ys[i + 1..];
      assert ys == ys[..i] + [ys[i]] + ys[i + 1..];
      calc {
        multiset(ys);
        multiset(ys[..i]) + multiset{ys[i]} + multiset(ys[i + 1..]);
        multiset(rest) + multiset{xs[0]};
      }
      assert xs == [xs[0]] + xs[1..];
      assert multiset(xs) == multiset(xs[1..]) + multiset{xs[0]};
      assert multiset(xs[1..]) == multiset(xs) - multiset{xs[0]};
      assert multiset(rest) == multiset(ys) - multiset{xs[0]};
      TotalPermutation(xs[1..], rest);
    }
  }

  lemma TotalOfFour(xs: seq<int>)
    requires |xs| == 4
    ensures Total(xs) == xs[0] + xs[1] + xs[2] + xs[3]
  {
    assert xs[1..][1..][1..][1..] == [];
    assert Total(xs[1..][1..][1..]) == xs[3];
    assert Total(xs[1..][1..]) == xs[2] + xs[3];
    assert Total(xs[1..]) == xs[1] + xs[2] + xs[3];
  }

  /** Permuting the four sub-scores does not change the risk. */
  lemma {:induction false} CalculateRiskSymmetric(a: seq<int>, b: seq<int>)
    requires |a| == 4 && multiset(a) == multiset(b)
    ensures |b| == 4
    ensures CalculateRisk(a[0], a[1], a[2], a[3]) == CalculateRisk(b[0], b[1], b[2], b[3])
  {
    assert |b| == |multiset(b)| == |multiset(a)| == 4;
    TotalPermutation(a, b);
    TotalOfFour(a);
    TotalOfFour(b);
  }
}
