/**
 * Recommendation banding: a risk score is turned into one of three fixed
 * pieces of advice, with the bands split at 30 and 70. The comparison is on
 * the raw integer, so scores below 0 or above 100 fall into the outer bands.
 */
module RecommendationEngine {

  const DeleteAdvice: string := "Delete immediately. High risk malware detected."
  const QuarantineAdvice: string := "Quarantine the file and avoid execution."
  const SafeAdvice: string := "File appears safe. No action required."

  /** Lowest score that is advised for deletion. */
  const DeleteThreshold: int := 70
  /** Lowest score that is advised for quarantine. */
  const QuarantineThreshold: int := 30

  /** `recommend(risk_score)`: each band yields its advice and no other. */
  function Recommend(riskScore: int): (r: string)
    ensures r == DeleteAdvice <==> riskScore >= DeleteThreshold
    ensures r == QuarantineAdvice <==> QuarantineThreshold <= riskScore < DeleteThreshold
    ensures r == SafeAdvice <==> riskScore < QuarantineThreshold
  {
    if riskScore >= DeleteThreshold then DeleteAdvice
    else if riskScore >= QuarantineThreshold then QuarantineAdvice
    else SafeAdvice
  }

  /** How severe a piece of advice is: safe < quarantine < delete. */
  function Severity(advice: string): nat
  {
    if advice == DeleteAdvice then 2
    else if advice == QuarantineAdvice then 1
    else 0
  }

  /** Every integer gets exactly one of the three advice strings. */
  lemma RecommendTotal(riskScore: int)
    ensures Recommend(riskScore) in {DeleteAdvice, QuarantineAdvice, SafeAdvice}
    ensures Severity(Recommend(riskScore)) ==
              if riskScore >= DeleteThreshold then 2
              else if riskScore >= QuarantineThreshold then 1
              else 0
  {
  }

  /** The band edges: 70 deletes, 69 and 30 quarantine, 29 is safe. */
  lemma RecommendBoundaries()
    ensures Recommend(70) == DeleteAdvice
    ensures Recommend(69) == QuarantineAdvice
    ensures Recommend(30) == QuarantineAdvice
    ensures Recommend(29) == SafeAdvice
  {
  }

  /** A higher score never gets milder advice. */
  lemma RecommendMonotone(a: int, b: int)
    requires a <= b
    ensures Severity(Recommend(a)) <= Severity(Recommend(b))
  {
    RecommendTotal(a);
    RecommendTotal(b);
  }
}
