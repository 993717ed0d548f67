# malscan risk analysis, modelled in Dafny

This project models the risk-analysis toolkit of malscan, a malware-scanning
service. The toolkit has four side-effect-free operations:

- **Risk aggregation** (`calculate_risk`). It adds the static, behaviour, source and
  community sub-scores and caps the total at 100. There is no lower cap.
- **Recommendation** (`recommend`). It maps a risk score onto three fixed pieces of
  advice, split at 30 and 70.
- **Community reputation** (`community_score`). It looks a file hash up in a constant
  vote table. An unknown hash or an empty entry scores 0. Otherwise the malicious
  share of the votes is scaled to 0..20 and truncated.
- **Explanation** (`explain`). It turns a scan-result record into a list of fixed
  English sentences and joins them with single spaces. The order is verdict, file
  type, code injection, memory write, detection count.

Files:

- `wrappers.dfy`: `Option` and `Result`.
- `text.dfy`: `" ".join` (`Text.Join`) and the decimal rendering of an integer in an
  f-string (`Text.NatToDecimal`).
- `risk_score.dfy`, `recommendation_engine.dfy`, `community_reputation.dfy`: the three
  pure operations, one module each.
- `explanation_engine.dfy`: the explanation builder. The source builds a list by
  successive appends under conditionals, so `ExplanationEngine.Explain` is a method
  that grows a `seq<string>` the same way. It is proved equal to
  `Join(Sentences(scan))`. `Sentences` is the declarative reference: the verdict
  sentence followed by four optional parts. The presence, order and wording
  properties are lemmas about `Sentences`. They are stated through `KindOf`, which
  reads a sentence's slot off its wording.

Only the four functions of `risk_analysis_module` are modelled.

Modelling choices:

- Python integers are unbounded, so they are modelled as `int`.
- `int((m / t) * 20)` is modelled over exact rationals as `TruncDiv(20 * m, t)`.
  `TruncDiv` truncates toward zero, as Python's `int()` does. Dafny's `/` does not do
  this for negative operands.
- A table entry is either `NoVotes`, the empty (falsy) record, or
  `Tally(malicious, clean)`. A tally whose counts add up to 0 is the source's division
  by zero. It is modelled as `Err(DivisionByZero)`.
- A scan result keeps four things:
  - `malicious` as a boolean (its truthiness);
  - `file_type` as an optional string, where the empty string is falsy;
  - `suspicious_apis` as a sequence, where a missing key is the empty sequence;
  - `detections` as an optional integer.

## Model

| member | source | states |
|---|---|---|
| `RiskScore.CalculateRisk` | risk_analysis_module/risk_score.py:1-5 | The result never exceeds 100. It equals the sum of the four sub-scores when that sum is at most 100, and is exactly 100 when the sum is at least 100. |
| `RiskScore.CalculateRiskInRange` | risk_analysis_module/risk_score.py:2-4 | With non-negative sub-scores the risk lies in 0..100. There is no lower cap, so the lower bound needs non-negative inputs. |
| `RiskScore.CalculateRiskMonotone` | risk_analysis_module/risk_score.py:2-5 | Raising any of the four sub-scores (each named argument no lower than before) never lowers the risk. |
| `RiskScore.CalculateRiskSymmetric` | risk_analysis_module/risk_score.py:3 | Any permutation of the four sub-scores gives the same risk. |
| `RiskScore.TotalPermutation` | risk_analysis_module/risk_score.py:3 | A sum of scores does not depend on their order: sequences with equal multisets have equal totals. |
| `RecommendationEngine.Recommend` | risk_analysis_module/recommendation_engine.py:1-7 | A score of 70 or more gives the delete advice, and only such a score does. 30..69 gives the quarantine advice, and below 30 (negatives included) gives the safe advice, each in both directions. |
| `RecommendationEngine.RecommendTotal` | risk_analysis_module/recommendation_engine.py:1-7 | Every integer gets one of the three advice strings. Its severity is 2, 1 or 0 according to its band. |
| `RecommendationEngine.RecommendBoundaries` | risk_analysis_module/recommendation_engine.py:2-5 | 70 gives delete; 69 and 30 give quarantine; 29 gives safe. |
| `RecommendationEngine.RecommendMonotone` | risk_analysis_module/recommendation_engine.py:2-7 | If a <= b, the advice for a is no more severe than the advice for b (safe < quarantine < delete). |
| `CommunityReputation.TruncDiv` | risk_analysis_module/community_reputation.py:12 | `int()` of an exact quotient: its magnitude is the floor of the quotient of the magnitudes, and its sign follows the operands' signs. Equivalently, the remainder a - q*b is smaller than the divisor in magnitude and is zero or has the dividend's sign. |
| `CommunityReputation.CommunityScore` | risk_analysis_module/community_reputation.py:6-12 | `community_score` against the shipped `community_db`: it never fails, every hash scores in 0..20, and a hash not in the table scores 0. The concrete values are in `CommunityDbScores`. |
| `CommunityReputation.TallyScore` | risk_analysis_module/community_reputation.py:11-12 | Scoring a tally fails exactly when malicious + clean is 0 (the division by zero). |
| `CommunityReputation.CommunityScoreIn` | risk_analysis_module/community_reputation.py:6-12 | A hash missing from the table, or mapped to an empty entry, scores `Ok(0)`. A hash with votes is an error exactly when its vote total is 0. |
| `CommunityReputation.TallyScoreInRange` | risk_analysis_module/community_reputation.py:11-12 | With non-negative counts and a positive total, the score is floor(20 * malicious / total) and lies in 0..20. All-clean gives 0 and all-malicious gives 20. |
| `CommunityReputation.TallyScoreIsFloor` | risk_analysis_module/community_reputation.py:11-12 | The score q of a non-negative tally satisfies q * total <= 20 * malicious < (q + 1) * total. |
| `CommunityReputation.CommunityDbScores` | risk_analysis_module/community_reputation.py:1-12 | Against the shipped table, "hash1" (8 of 9 malicious) scores 17, "hash2" scores 0, and any other hash scores 0. |
| `CommunityReputation.CommunityScoreNeverFails` | risk_analysis_module/community_reputation.py:1-12 | Looking any hash up in the shipped table never divides by zero, and every hash scores in 0..20. |
| `Text.Join` | risk_analysis_module/explanation_engine.py:63 | Joining with single spaces: an empty list gives "". Otherwise the length is the parts' total length plus one separator between each pair of neighbours, and the text starts with the first part and ends with the last. |
| `Text.JoinAppend` | risk_analysis_module/explanation_engine.py:63 | Joining two non-empty lists one after the other is joining each and putting one space between them, so every part appears in order with a single space between neighbours. |
| `Text.NatToDecimal` | risk_analysis_module/explanation_engine.py:60 | The detection count as rendered by an f-string: non-empty, digits only, no leading zero, and one digit exactly for counts below 10. |
| `Text.NatToDecimalRoundTrip` | risk_analysis_module/explanation_engine.py:60 | Reading the rendered digits back gives the count that was rendered. |
| `ExplanationEngine.FileTypeSentenceWording` | risk_analysis_module/explanation_engine.py:37-40 | The file-type sentence starts with the fixed prefix and then names the type, followed directly by the tail: the "commonly abused by malware authors" wording exactly when the type is exe, dll, js or bat, and `'.` otherwise, with nothing in between. |
| `ExplanationEngine.DetectionSentenceWording` | risk_analysis_module/explanation_engine.py:59-61 | The detection sentence has the fixed prefix and tail. Between them is the count in decimal digits, with no leading zero, as `str(n)` renders it. |
| `ExplanationEngine.Explain` | risk_analysis_module/explanation_engine.py:9-63 | The method that appends sentence by sentence returns exactly the space-join of the reference sentence list `Sentences(scan)`. |
| `ExplanationEngine.SentenceKinds` | risk_analysis_module/explanation_engine.py:22-61 | The slots filled, in order, are: the verdict; the file type when it is truthy; code injection when CreateRemoteThread is listed; memory write when WriteProcessMemory is listed; the detection count when present and positive. |
| `ExplanationEngine.SentencesOrdered` | risk_analysis_module/explanation_engine.py:22-61 | Sentence slots strictly increase in the order verdict, file type, injection, memory write, detections. So each slot appears at most once. |
| `ExplanationEngine.SentencesVerdict` | risk_analysis_module/explanation_engine.py:22-32 | The first sentence is the "flagged as malicious" one exactly when `malicious` is truthy, and otherwise the "no known malware signatures" one. There are 1 to 5 sentences, and exactly one when no optional field triggers. |
| `ExplanationEngine.SentencesFileType` | risk_analysis_module/explanation_engine.py:35-41 | A file-type sentence is present exactly when the file type is truthy. It then comes right after the verdict. |
| `ExplanationEngine.SentencesInjection` | risk_analysis_module/explanation_engine.py:44-49 | The code-injection sentence is present exactly when "CreateRemoteThread" is among the suspicious APIs. A missing key is an empty list. |
| `ExplanationEngine.SentencesMemoryWrite` | risk_analysis_module/explanation_engine.py:51-54 | The memory-write sentence is present exactly when "WriteProcessMemory" is among the suspicious APIs. |
| `ExplanationEngine.SentencesDetections` | risk_analysis_module/explanation_engine.py:57-61 | The detection sentence is present exactly when `detections` is present and positive, and it is then the last sentence. An absent count or 0 adds nothing. |
| `ExplanationEngine.ExplainText` | risk_analysis_module/explanation_engine.py:22-63 | The explanation is never empty and starts with the verdict sentence. It is that sentence alone when no optional field triggers; otherwise it is the verdict, a space, and the join of the rest. |

## Left out

- Floating point in `community_score`: `int((m / t) * 20)` is modelled with exact rational arithmetic. The model therefore differs from the source for large vote totals, from about 10^14 on: the float quotient can round up to the next integer (malicious = 534802455750215, clean = 28147497671064 gives 19 in floating point and 18 here). With a negative count whose quotient exceeds the float range, the source raises `OverflowError`, while the model returns a value.
- Table entries that lack the "malicious" or "clean" key: the source would raise `KeyError`. Entries here are either empty or carry both counts.
- Python truthiness beyond the modelled cases: the model does not cover a non-boolean `malicious`, a non-string `file_type`, a `suspicious_apis` that is `None` or a string (where `in` would test substrings), or a non-integer `detections`.
- The lookup cannot modify `community_db`: the table is a constant and the lookup is a function of it, so no separate member states this.
- Float or otherwise non-integer sub-scores passed to `calculate_risk`: sub-scores are integers.
- The rest of the repository is outside this model: the HTTP routes in main.py, quarantine, sanitizers, secure deletion and file validation. These are file-system and library I/O. reconstruction_module/hash_utils.py is not part of this model.
