# Student Data Risk Mapper — risk-scoring engine in Dafny

Student Data Risk Mapper lets a school district record, for each edtech system it uses, a
questionnaire about how the system handles student data. The heart of the application is
an explainable risk-scoring engine. It turns one set of answers into four things:

- a total score from 0 to 100;
- a breakdown into five category scores: sensitivity (0–30), exposure (0–25), security
  controls (0–20), vendor posture (0–15) and integration blast radius (0–10);
- the list of reason codes behind the score, highest points first;
- a risk tier: Low, Moderate, High or Critical.

This project models that engine and the two files it depends on. They are the answer
schema with its defaults, vocabularies, data-type catalog and breakdown bounds, and the
stored-assessment model with its tier enumeration and read-only views.

## Layout

| file | module | models |
|---|---|---|
| `wrappers.dfy` | `Wrappers` | `Option`: a missing key or a failed lookup |
| `stable_sort.dfy` | `StableSort` | `list.sort(key=…, reverse=True)`: a stable descending sort, with its order, permutation, stability and uniqueness lemmas |
| `models_assessment.dfy` | `AssessmentModel` | `RiskTier`, `from_score`, and the `data_types`, `has_sensitive_data` and `top_reason_codes` properties |
| `schemas_assessment.dfy` | `AssessmentSchema` | `AssessmentAnswers` with its defaults and vocabularies, `DATA_TYPES`, `model_dump`, and `ScoreBreakdown` bounds |
| `scoring.dfy` | `Scoring` | `ReasonCode`, `ScoreResult`, the weight and template tables, the five `calculate_*_score` functions, `determine_risk_tier`, `calculate_risk_score` and `reason_codes_to_json` |
| `scoring_properties.dfy` | `ScoringProperties` | the engine's promises: category rules, reason/penalty correspondence, bounds and result ordering |
| `scoring_examples.dfy` | `ScoringExamples` | the test fixtures and their outcomes |

### How the scorers are modelled

The five scorers keep their imperative shape. Each one keeps a local `score` that grows by
`+=` and a `reasons` list that grows by `append`. The sensitivity scorer loops over the
data-type list.

Each scorer is specified by a **penalty table**. A table is the sequence of
`Penalty(points, code)` values contributed by the scorer's questions, in the order the
scorer asks them:

- `Uncapped(table)` is the running sum.
- `Emitted(table, category)` is the list of reasons the table produces.

Each scorer method is proved to return `Min(Uncapped(table), cap)` and
`Emitted(table, category)`:

- The sensitivity loop carries this as a loop invariant over prefixes of the table.
- The straight-line scorers run one block method per `if`/`elif` block of the source. Each
  block extends a ghost record of the questions asked so far.

The properties are then lemmas about the tables.

### Behaviour of the code worth knowing

- `data_types` and `integration_types` are lists, and the scorers walk or count every entry.
  - A repeated data type adds its weight and its reason once per occurrence. See
    `ScoringProperties.RepeatedDataTypeReasons` and
    `ScoringProperties.DuplicateDataTypeCountsTwice`.
  - `INT-MULTI` counts list entries, so repeated types count. See
    `ScoringProperties.MultipleIntegrationsIff` and
    `ScoringExamples.RepeatedIntegrationTypeCounts`.
- An "unknown" exposure or integration answer adds a weight no larger than the trigger's
  (equal for storage location) but gives no reason;
  among these questions only subprocessors explain "unknown" (EXPO-SUBP). See
  `ScoringProperties.UnknownExposureIsMostlySilent` and
  `ScoringProperties.IntegrationReasonsIff`. An "unknown" security or posture answer is
  also given a reason (for deletion, its own code and weight).
- Untouched answers score 0 + 20 + 20 + 11 + 5 = 56, tier "High": every "unknown" answer
  costs points, and the integration defaults add up to 2 + 1 + 2 = 5. See `ScoringExamples.DefaultAnswersScore`.

## Model

| member | source | states |
|---|---|---|
| `AssessmentModel.RiskTier.FromScore` | student-data-risk-mapper/app/models/assessment.py:24-34 | the tier is Low iff score ≤ 25, Moderate iff 26–50, High iff 51–75, Critical iff above 75 |
| `AssessmentModel.RiskTier.FromValue` | student-data-risk-mapper/app/models/assessment.py:17-22 | a string names a tier iff it is one of the four values, and the tier found has that value |
| `AssessmentModel.ValueRoundTrip` | student-data-risk-mapper/app/models/assessment.py:17-22 | looking a tier up by its own value gives the tier back |
| `AssessmentModel.FromScoreMonotone` | student-data-risk-mapper/app/models/assessment.py:27-34 | a larger score never yields a lower tier |
| `AssessmentModel.DataTypes` | student-data-risk-mapper/app/models/assessment.py:77-80 | the stored `data_types` value, or an empty list when the key is missing |
| `AssessmentModel.ElementSet` | student-data-risk-mapper/app/models/assessment.py:89 | `set(...)` of a list holds exactly its elements; of a text, exactly the one-character strings of its characters |
| `AssessmentModel.HasSensitiveData` | student-data-risk-mapper/app/models/assessment.py:82-89 | true iff the stored list contains one of the six sensitive types |
| `AssessmentModel.MeetsSensitive` | student-data-risk-mapper/app/models/assessment.py:85-89 | the intersection with the sensitive set is non-empty iff the value is a list holding a sensitive type |
| `AssessmentModel.TopReasonCodes` | student-data-risk-mapper/app/models/assessment.py:91-94 | the first min(5, n) stored reasons, in stored order; empty when none are stored |
| `AssessmentSchema.AssessmentAnswers.Valid` | student-data-risk-mapper/app/schemas/assessment.py:27-87 | the answers pydantic accepts: each of the 18 single-valued fields lies in its `Literal` vocabulary; the two lists are free |
| `AssessmentSchema.ValidIgnoresLists` | student-data-risk-mapper/app/schemas/assessment.py:58-87 | replacing either list leaves validity unchanged: the vocabularies bind only the single-valued fields |
| `AssessmentSchema.DefaultAnswers` | student-data-risk-mapper/app/schemas/assessment.py:58-87 | every single-valued field defaults to "unknown", both lists to empty, `data_types_unknown` to false, and the defaults are valid |
| `AssessmentSchema.ModelDump` | student-data-risk-mapper/app/schemas/assessment.py:52-87 | the stored JSON holds each list under its field name and the flag as a boolean |
| `AssessmentSchema.DataTypesOfStoredAnswers` | student-data-risk-mapper/app/models/assessment.py:77-89 | reading `data_types` back from stored answers gives the submitted list; `has_sensitive_data` holds iff that list contains a sensitive type |
| `Scoring.EmittedMembership` | student-data-risk-mapper/app/services/scoring.py:118-300 | a reason is emitted iff some question of the table carries its code, with that question's points, the category and the code's template |
| `Scoring.EmittedWithinTally` | student-data-risk-mapper/app/services/scoring.py:100-302 | the emitted reasons' points never exceed the uncapped sum, and there is at most one reason per question |
| `Scoring.PrefixStep` | student-data-risk-mapper/app/services/scoring.py:118-120 | asking one more question adds its points to the running score and its reason, if any, to the end of the reasons |
| `Scoring.UncappedZero` | student-data-risk-mapper/app/services/scoring.py:100-302 | a category's uncapped score is 0 iff no question in it adds points |
| `Scoring.EmittedEmpty` | student-data-risk-mapper/app/services/scoring.py:100-302 | a category gives no reason iff no question in it carries a code |
| `Scoring.EmittedCodes` | student-data-risk-mapper/app/services/scoring.py:59-97 | when every code of a table is in a given set, every emitted reason has a code from that set, the table's category and its code's template |
| `ScoringProperties.EmittedOnly` | student-data-risk-mapper/app/services/scoring.py:148-198 | when only one question of a table carries a code, the category's reasons are that question's reason alone |
| `Scoring.ApplyTriggeredOrUnknown` | student-data-risk-mapper/app/services/scoring.py:148-153 | the trigger answer adds its points and a reason; "unknown" adds its weight, no larger than the trigger's (equal for storage location), silently; anything else adds nothing; running score and reasons stay equal to the tally of the questions asked |
| `Scoring.ApplyUnlessYes` | student-data-risk-mapper/app/services/scoring.py:214-217 | any answer other than "yes" adds the points and the reason; the running tally is kept |
| `Scoring.ApplySubprocessorPenalty` | student-data-risk-mapper/app/services/scoring.py:176-182 | "no" adds 4 and "unknown" adds 3, both with EXPO-SUBP; the running tally is kept |
| `Scoring.ApplySsoPenalty` | student-data-risk-mapper/app/services/scoring.py:209-212 | "none" or "unknown" adds 4 with CTRL-NOSSO; the running tally is kept |
| `Scoring.ApplyDeletionPenalty` | student-data-risk-mapper/app/services/scoring.py:255-264 | "no" adds 6 with POST-NODEL; "unknown" adds 5 and "support_ticket" adds 3, both with POST-DELUNK; the running tally is kept |
| `Scoring.ApplyBreadthPenalty` | student-data-risk-mapper/app/services/scoring.py:297-300 | three or more list entries add 2 with INT-MULTI; the running tally is kept |
| `Scoring.CalculateSensitivityScore` | student-data-risk-mapper/app/services/scoring.py:100-138 | returns the capped sum and the reasons of the sensitivity table (the unknown override, or one entry per list element); the score lies in 0–30 |
| `Scoring.CalculateExposureScore` | student-data-risk-mapper/app/services/scoring.py:141-198 | returns the capped sum and the reasons of the seven exposure questions in source order; the score lies in 0–25 |
| `Scoring.CalculateSecurityScore` | student-data-risk-mapper/app/services/scoring.py:201-239 | returns the capped sum and the reasons of the six control questions; the score lies in 0–20 |
| `Scoring.CalculatePostureScore` | student-data-risk-mapper/app/services/scoring.py:242-266 | returns the capped sum and the reasons of the retention and deletion questions; the score lies in 0–15 |
| `Scoring.CalculateIntegrationScore` | student-data-risk-mapper/app/services/scoring.py:269-302 | returns the capped sum and the reasons of the four integration questions; the score lies in 0–10 |
| `Scoring.DetermineRiskTier` | student-data-risk-mapper/app/services/scoring.py:305-314 | "Low" iff total ≤ 25, "Moderate" iff 26–50, "High" iff 51–75, "Critical" iff above 75 |
| `Scoring.CalculateRiskScore` | student-data-risk-mapper/app/services/scoring.py:317-355 | the total is the five scores summed and clamped to 100; the breakdown has the five keys; the tier is `DetermineRiskTier(total)`; the reasons are a permutation of the concatenated category reasons, non-increasing in points, with equal-point reasons in concatenation order |
| `Scoring.ReasonCodesToJson` | student-data-risk-mapper/app/services/scoring.py:358-368 | one object per reason, each with exactly the keys code, explanation, category and points |
| `StableSort.SortDescendingOrdered` | student-data-risk-mapper/app/services/scoring.py:348 | the sorted list is non-increasing by key |
| `StableSort.SortDescendingPermutation` | student-data-risk-mapper/app/services/scoring.py:348 | the sorted list has the same elements with the same multiplicities |
| `StableSort.SortDescendingStable` | student-data-risk-mapper/app/services/scoring.py:348 | for every key, the elements with that key keep their relative order |
| `StableSort.SortDescendingIsUnique` | student-data-risk-mapper/app/services/scoring.py:348 | every ordering that is descending and stable is this one list, so any stable sort gives the same result |
| `ScoringProperties.ReasonPointsWithinUncapped` | student-data-risk-mapper/app/services/scoring.py:100-302 | in each of the five categories, the reasons' points add up to at most the uncapped sum |
| `ScoringProperties.UnknownDataTypesOverride` | student-data-risk-mapper/app/services/scoring.py:108-116 | unknown data types score exactly 10 with the single reason SENS-UNK, whatever the list holds |
| `ScoringProperties.DataTypeTableSum` | student-data-risk-mapper/app/services/scoring.py:118-120 | the loop's uncapped sum is the sum of the list's weights, element by element |
| `ScoringProperties.SensitivityIsCappedSum` | student-data-risk-mapper/app/services/scoring.py:118-138 | known data types score min(Σ weights, 30); unlisted keys weigh 0 |
| `ScoringProperties.ExplainedDataTypes` | student-data-risk-mapper/app/services/scoring.py:122-136 | a data type has a reason code iff it is one of the eight explained types |
| `ScoringProperties.SensitivityReasonIff` | student-data-risk-mapper/app/services/scoring.py:118-136 | a reason is emitted iff some list element is an explained type, with that type's code and weight |
| `ScoringProperties.LowSensitivityIsSilent` | student-data-risk-mapper/app/services/scoring.py:118-136 | a list with no explained type yields no reason |
| `ScoringProperties.DataReason` | student-data-risk-mapper/app/services/scoring.py:122-136 | an explained data type gives exactly one reason, in the sensitivity category, worth the type's weight |
| `ScoringProperties.DataReasonInjective` | student-data-risk-mapper/app/services/scoring.py:122-136 | a data type gives an explained type's reason iff it is that type; "discipline" and "attendance_discipline" share a code but differ in weight |
| `ScoringProperties.DataReasonCount` | student-data-risk-mapper/app/services/scoring.py:118-136 | over any list, an explained type's reason appears exactly as many times as the type is listed |
| `ScoringProperties.RepeatedDataTypeReasons` | student-data-risk-mapper/app/services/scoring.py:108-138 | with known data types, the sensitivity reasons hold each explained type's reason once per occurrence of the type in the list |
| `ScoringProperties.DuplicateDataTypeCountsTwice` | student-data-risk-mapper/app/services/scoring.py:118-136 | a type listed twice is weighed twice and explained twice |
| `ScoringProperties.SensitiveTypesAreTheHeaviest` | student-data-risk-mapper/app/models/assessment.py:85-88 | a type is in the sensitive set iff its weight is 6 or more |
| `ScoringProperties.HeavyTypesAreExplained` | student-data-risk-mapper/app/services/scoring.py:39-45 | every type weighing 6 or more has a reason code |
| `ScoringProperties.CatalogIsWeighted` | student-data-risk-mapper/app/schemas/assessment.py:11-25 | every catalog key has a positive weight; "discipline" is weighted but not in the catalog |
| `ScoringProperties.HeavyTypeGivesReason` | student-data-risk-mapper/app/services/scoring.py:118-136 | a listed type weighing 6 or more emits a reason with that weight |
| `ScoringProperties.ReasonHasListedType` | student-data-risk-mapper/app/services/scoring.py:118-136 | every sensitivity reason comes from a listed type of the same weight |
| `ScoringProperties.HeavyReasonIff` | student-data-risk-mapper/app/services/scoring.py:118-136 | a reason worth 6 or more is emitted iff some listed type weighs 6 or more |
| `ScoringProperties.SensitiveDataMatchesHeavyReasons` | student-data-risk-mapper/app/models/assessment.py:82-89 | for known data types, the stored assessment reports sensitive data iff the scorer emitted a reason worth 6 or more |
| `ScoringProperties.ExposureReasonsIff` | student-data-risk-mapper/app/services/scoring.py:148-196 | each of the seven exposure codes is emitted iff its answer triggers it (subprocessors: "no" or "unknown") |
| `ScoringProperties.ExposureReasonSharing` | student-data-risk-mapper/app/services/scoring.py:149-153 | EXPO-SHARE iff sharing is "yes" |
| `ScoringProperties.ExposureReasonAdvertising` | student-data-risk-mapper/app/services/scoring.py:156-160 | EXPO-ADS iff advertising use is "yes" |
| `ScoringProperties.ExposureReasonAiTraining` | student-data-risk-mapper/app/services/scoring.py:163-167 | EXPO-AI iff AI training is "yes" |
| `ScoringProperties.ExposureReasonDataSold` | student-data-risk-mapper/app/services/scoring.py:170-174 | EXPO-SOLD iff data sold is "yes" |
| `ScoringProperties.ExposureReasonSubprocessors` | student-data-risk-mapper/app/services/scoring.py:177-182 | EXPO-SUBP iff subprocessors are "no" or "unknown" |
| `ScoringProperties.ExposureReasonRegion` | student-data-risk-mapper/app/services/scoring.py:185-189 | EXPO-GLOBAL iff the region is "global" |
| `ScoringProperties.ExposureReasonStorage` | student-data-risk-mapper/app/services/scoring.py:192-196 | EXPO-BOTH iff storage is "both" |
| `ScoringProperties.UnknownExposureIsMostlySilent` | student-data-risk-mapper/app/services/scoring.py:148-198 | all-unknown exposure answers score 20 with the single reason EXPO-SUBP worth 3 |
| `ScoringProperties.ExposureScoreIsSum` | student-data-risk-mapper/app/services/scoring.py:141-198 | the exposure score is min(25, Σ of the seven per-answer weights), e.g. yes=6/unknown=4 for sharing |
| `ScoringProperties.SecurityReasonsIff` | student-data-risk-mapper/app/services/scoring.py:209-237 | CTRL-NOSSO iff SSO is "none" or "unknown"; each other control code iff its answer is not "yes" |
| `ScoringProperties.SecurityReasonSso` | student-data-risk-mapper/app/services/scoring.py:210-212 | CTRL-NOSSO iff SSO is "none" or "unknown" |
| `ScoringProperties.SecurityReasonMfa` | student-data-risk-mapper/app/services/scoring.py:215-217 | CTRL-NOMFA iff MFA is not "yes" |
| `ScoringProperties.SecurityReasonRbac` | student-data-risk-mapper/app/services/scoring.py:220-222 | CTRL-NORBAC iff RBAC is not "yes" |
| `ScoringProperties.SecurityReasonTransit` | student-data-risk-mapper/app/services/scoring.py:225-227 | CTRL-NOTRANS iff encryption in transit is not "yes" |
| `ScoringProperties.SecurityReasonRest` | student-data-risk-mapper/app/services/scoring.py:230-232 | CTRL-NOREST iff encryption at rest is not "yes" |
| `ScoringProperties.SecurityReasonAudit` | student-data-risk-mapper/app/services/scoring.py:235-237 | CTRL-NOAUDIT iff audit logs are not "yes" |
| `ScoringProperties.SecurityScoreIsSum` | student-data-risk-mapper/app/services/scoring.py:201-239 | the security score is the plain sum 4/4/3/3/3/3 of the failed controls; the cap never binds |
| `ScoringProperties.AllControlsPresent` | student-data-risk-mapper/app/services/scoring.py:201-239 | with every control in place the security score is 0 and no reason is given |
| `ScoringProperties.PostureRules` | student-data-risk-mapper/app/services/scoring.py:242-266 | retention ≠ "yes" adds 6; deletion no/unknown/support_ticket add 6/5/3; POST-RETUNK, POST-NODEL and POST-DELUNK appear exactly in those cases |
| `ScoringProperties.IntegrationScoreIsSum` | student-data-risk-mapper/app/services/scoring.py:269-302 | the integration score is min(10, Σ of api_key 3/unknown 2, realtime 3/unknown 1, write-back 3/unknown 2, and 2 for three or more entries) |
| `ScoringProperties.IntegrationReasonsIff` | student-data-risk-mapper/app/services/scoring.py:277-295 | INT-APIKEY, INT-REALTIME and INT-SISWB each appear iff the triggering answer was given; "unknown" is silent |
| `ScoringProperties.IntegrationReasonApiKey` | student-data-risk-mapper/app/services/scoring.py:277-281 | INT-APIKEY iff the method is "api_key" |
| `ScoringProperties.IntegrationReasonRealtime` | student-data-risk-mapper/app/services/scoring.py:284-288 | INT-REALTIME iff the frequency is "realtime" |
| `ScoringProperties.IntegrationReasonWriteback` | student-data-risk-mapper/app/services/scoring.py:291-295 | INT-SISWB iff SIS write-back is "yes" |
| `ScoringProperties.MultipleIntegrationsIff` | student-data-risk-mapper/app/services/scoring.py:297-300 | INT-MULTI iff the list has three or more entries, repeats included |
| `ScoringProperties.TotalClampNeverBinds` | student-data-risk-mapper/app/services/scoring.py:334-336 | the caps add up to 100, so the total equals the plain sum of the five scores |
| `ScoringProperties.BreakdownWithinSchemaBounds` | student-data-risk-mapper/app/schemas/assessment.py:120-127 | the five scores and the total always satisfy the schema's breakdown bounds; the breakdown has exactly the five category keys |
| `ScoringProperties.SensitivityCatalogued` | student-data-risk-mapper/app/services/scoring.py:59-68 | every sensitivity reason has a template code, that code's template and category "sensitivity" |
| `ScoringProperties.ExposureCatalogued` | student-data-risk-mapper/app/services/scoring.py:70-77 | every exposure reason has a template code, that code's template and category "exposure" |
| `ScoringProperties.SecurityCatalogued` | student-data-risk-mapper/app/services/scoring.py:79-85 | every security reason has a template code, that code's template and category "security" |
| `ScoringProperties.PostureCatalogued` | student-data-risk-mapper/app/services/scoring.py:87-90 | every posture reason has a template code, that code's template and category "posture" |
| `ScoringProperties.IntegrationCatalogued` | student-data-risk-mapper/app/services/scoring.py:92-96 | every integration reason has a template code, that code's template and category "integration" |
| `ScoringProperties.AllReasonsCatalogued` | student-data-risk-mapper/app/services/scoring.py:346-348 | every reason of the result has a template code, its own template and one of the five category names |
| `ScoringProperties.TierMappersAgree` | student-data-risk-mapper/app/models/assessment.py:24-34 | `from_score` and `determine_risk_tier` agree on every score, and the stored tier string always names an enum member |
| `ScoringProperties.ReasonJsonRoundTrip` | student-data-risk-mapper/app/services/scoring.py:358-368 | reading each serialised reason back gives the reason, in the same position |
| `ScoringProperties.TopReasonsOutweighTheRest` | student-data-risk-mapper/app/models/assessment.py:91-94 | the stored top reasons are the first min(5, n) sorted reasons, and none weighs less than any reason left out |
| `ScoringExamples.LowRiskAnswers` | student-data-risk-mapper/tests/conftest.py:12-37 | the low-risk fixture is a valid answer set |
| `ScoringExamples.HighRiskAnswers` | student-data-risk-mapper/tests/conftest.py:40-68 | the high-risk fixture is a valid answer set |
| `ScoringExamples.WorstAnswers` | student-data-risk-mapper/tests/test_scoring.py:291-321 | the maximally bad answers are a valid answer set |
| `ScoringExamples.DefaultAnswersScore` | student-data-risk-mapper/tests/test_scoring.py:257-261 | default answers score 0/20/20/11/5, total 56, tier "High" |
| `ScoringExamples.LowRiskScore` | student-data-risk-mapper/tests/test_scoring.py:263-267 | the low-risk fixture scores 3/0/0/0/0, total 3, tier "Low" |
| `ScoringExamples.LowRiskIsSilent` | student-data-risk-mapper/tests/conftest.py:12-37 | the low-risk fixture gives no reason in any category |
| `ScoringExamples.LowRiskExposureIsSilent` | student-data-risk-mapper/app/services/scoring.py:141-198 | the low-risk fixture gives no exposure reason |
| `ScoringExamples.LowRiskSecurityIsSilent` | student-data-risk-mapper/app/services/scoring.py:201-239 | the low-risk fixture gives no security reason |
| `ScoringExamples.LowRiskPostureIsSilent` | student-data-risk-mapper/app/services/scoring.py:242-266 | the low-risk fixture gives no posture reason |
| `ScoringExamples.LowRiskIntegrationIsSilent` | student-data-risk-mapper/app/services/scoring.py:269-302 | the low-risk fixture gives no integration reason |
| `ScoringExamples.HighRiskScore` | student-data-risk-mapper/tests/test_scoring.py:269-273 | the high-risk fixture scores 30/25/20/12/10, total 97, tier "Critical" |
| `ScoringExamples.WorstAnswersScore` | student-data-risk-mapper/tests/test_scoring.py:291-321 | the worst answers reach the sensitivity, exposure, security and integration caps, total 97 |
| `ScoringExamples.HighRiskListedPoints` | student-data-risk-mapper/tests/conftest.py:44-47 | the high-risk data types weigh 36 together |
| `ScoringExamples.WorstListedPoints` | student-data-risk-mapper/tests/test_scoring.py:295-299 | the nine worst-case data types weigh 55 together |
| `ScoringExamples.LowSensitivityExample` | student-data-risk-mapper/tests/test_scoring.py:69-73 | directory info and auth identifiers score 3 with no reason |
| `ScoringExamples.MixedSensitivityExample` | student-data-risk-mapper/tests/test_scoring.py:75-82 | IEP/504, health and directory info score 18 with reasons SENS-IEP and SENS-HEALTH, both worth 8 |
| `ScoringExamples.SensitivityCapExample` | student-data-risk-mapper/tests/test_scoring.py:84-93 | the six heaviest types weigh 44 and score the cap of 30 |
| `ScoringExamples.RepeatedIntegrationTypeCounts` | student-data-risk-mapper/app/services/scoring.py:298 | three entries of the same integration type trigger INT-MULTI |
| `ScoringExamples.SupportTicketOnDefaultsScoresNine` | student-data-risk-mapper/tests/test_scoring.py:211-215 | support-ticket deletion with retention left at "unknown" scores 6 + 3 = 9 posture points, with POST-RETUNK and POST-DELUNK |
| `ScoringExamples.SupportTicketAloneScoresThree` | student-data-risk-mapper/app/services/scoring.py:250-264 | with a stated retention policy, support-ticket deletion scores 3 with the single reason POST-DELUNK worth 3 |

## Left out

- Explanation text: a reason's explanation is `Template(code)`, standing for the template registered for its code. The 28 template sentences are not modelled. `REASON_TEMPLATES` is modelled as the set of its keys.
- The sort algorithm: Python's timsort is modelled by an insertion sort. `StableSort.SortDescendingIsUnique` shows that any stable descending sort of the same list gives the same result.
- The in-place `all_reasons.sort(...)` is modelled as reassigning the local to the sorted list. No other reference to the list exists in the source.
- Pydantic validation: the vocabularies are the predicate `AssessmentAnswers.Valid`. The scorers do not require it, as in the source, where an unlisted string falls through to "no penalty", except for the questions penalised unless the answer is "yes": the five security controls MFA, RBAC, encryption in transit, encryption at rest and audit logs, and the retention-policy question, which all add their penalty for it.
- The display texts of the `DATA_TYPES` catalog are not modelled; only its keys are.
- The pydantic `ReasonCode` schema (`app/schemas/assessment.py:90-95`) has the same four fields as the engine's `ReasonCode` and is not modelled separately. `AssessmentCreate` and `AssessmentResponse` are transport shapes with no behaviour.
- The ORM columns, relationships, `__repr__` and database defaults of the stored assessment are out of scope. So are the web routers, authentication, PDF and CSV export, audit logging and configuration.
- `AssessmentModel.HasSensitiveData`: requires that the stored `data_types` is not a boolean. Python raises a TypeError on `set(True)`, and that error path is not modelled. A stored text is handled the way Python does it, through its characters.
- `AssessmentSchema.ModelDump`: its contract names only the three keys the rest of the model reads back (`data_types`, `data_types_unknown`, `integration_types`). The body builds all 21 keys.
- Integer width: Python integers are unbounded and so are Dafny's; no wrap-around exists to model.

## Findings

| source | as written | input that shows it | evidently intended | confidence | as-written member | corrected member |
|---|---|---|---|---|---|---|
| student-data-risk-mapper/tests/test_scoring.py:211-215 | the test expects a posture score of 3 for support-ticket deletion, but leaves retention at its "unknown" default, which the scorer (app/services/scoring.py:251-253) penalises by 6 | `AssessmentAnswers(deletion_process="support_ticket")`: the scorer gives 6 + 3 = 9 | the test meant to isolate the deletion penalty, with `retention_policy_stated="yes"`, where the score is 3; the scorer itself is right and the model follows it | high; not executed | `ScoringExamples.SupportTicketOnDefaultsScoresNine` | `ScoringExamples.SupportTicketAloneScoresThree` |
