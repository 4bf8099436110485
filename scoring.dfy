/**
 * The explainable risk-scoring engine.
 *
 * Each category scorer walks its questions in a fixed order, adds points to a
 * running `score` and appends a reason code for the answers it explains. The
 * specification of a scorer is its *penalty table*: the sequence of
 * `Penalty` values its questions contribute, in the order the scorer visits
 * them. `Uncapped` sums a table and `Emitted` lists the reasons it produces;
 * each scorer method is proved to return `Min(Uncapped(table), cap)` and
 * `Emitted(table, category)`.
 */
module Scoring {
  import opened Wrappers
  import opened StableSort
  import AssessmentModel
  import opened AssessmentSchema

  // ---------------------------------------------------------------------------
  // Reason codes and results
  // ---------------------------------------------------------------------------

  /** Category names, as stored in a reason's `category`. */
  const SENSITIVITY := "sensitivity"
  const EXPOSURE := "exposure"
  const SECURITY := "security"
  const POSTURE := "posture"
  const INTEGRATION := "integration"

  /** Caps of the five categories and of the total. */
  const SENSITIVITY_CAP := 30
  const EXPOSURE_CAP := 25
  const SECURITY_CAP := 20
  const POSTURE_CAP := 15
  const INTEGRATION_CAP := 10
  const TOTAL_CAP := 100

  /** The explanation text of a reason: the template registered for its code (the wording is not modelled). */
  datatype Explanation = Template(code: string)

  datatype ReasonCode = ReasonCode(code: string, explanation: Explanation, category: string, points: int)

  datatype ScoreResult = ScoreResult(
    total: int,
    breakdown: map<string, int>,
    reasonCodes: seq<ReasonCode>,
    riskTier: string)

  /** A reason with the template of its own code, as every scorer builds it. */
  function Reason(code: string, category: string, points: int): ReasonCode
  {
    ReasonCode(code, Template(code), category, points)
  }

  /** The sort key of `calculate_risk_score`. */
  function Points(r: ReasonCode): int
  {
    r.points
  }

  /** Sensitivity weight of each known data type. */
  const DATA_TYPE_POINTS: map<string, nat> := map[
    "iep_504" := 8, "health" := 8, "behavioral_sel" := 7, "biometrics" := 8,
    "precise_location" := 7, "discipline" := 6,
    "photos_video_audio" := 4, "staff_notes" := 4, "academic_records" := 3,
    "attendance_discipline" := 3,
    "directory_info" := 2, "contact_info" := 2, "auth_identifiers" := 1,
    "device_identifiers" := 1
  ]

  /** The codes that have an explanation template. */
  const REASON_TEMPLATES: set<string> := {
    "SENS-IEP", "SENS-HEALTH", "SENS-BEHAV", "SENS-BIO", "SENS-LOC", "SENS-DISC",
    "SENS-MEDIA", "SENS-UNK",
    "EXPO-SHARE", "EXPO-ADS", "EXPO-AI", "EXPO-SOLD", "EXPO-SUBP", "EXPO-GLOBAL", "EXPO-BOTH",
    "CTRL-NOSSO", "CTRL-NOMFA", "CTRL-NORBAC", "CTRL-NOTRANS", "CTRL-NOREST", "CTRL-NOAUDIT",
    "POST-RETUNK", "POST-DELUNK", "POST-NODEL",
    "INT-APIKEY", "INT-REALTIME", "INT-SISWB", "INT-MULTI"
  }

  function Min(x: int, y: int): int
  {
    if x <= y then x else y
  }

  // ---------------------------------------------------------------------------
  // Penalty tables
  // ---------------------------------------------------------------------------

  /** What one question contributes: points, and the code of the reason it emits, if any. */
  datatype Penalty = Penalty(points: nat, code: Option<string>)

  function ReasonsOf(p: Penalty, category: string): seq<ReasonCode>
  {
    if p.code.Some? then [Reason(p.code.value, category, p.points)] else []
  }

  /** The running total after every question of the table. */
  function Uncapped(ps: seq<Penalty>): nat
  {
    if ps == [] then 0 else Uncapped(ps[..|ps| - 1]) + ps[|ps| - 1].points
  }

  /** The reasons appended along the table, in order. */
  function Emitted(ps: seq<Penalty>, category: string): seq<ReasonCode>
  {
    if ps == [] then [] else Emitted(ps[..|ps| - 1], category) + ReasonsOf(ps[|ps| - 1], category)
  }

  /** Sum of the points of a list of reasons. */
  function SumPoints(rs: seq<ReasonCode>): int
  {
    if rs == [] then 0 else SumPoints(rs[..|rs| - 1]) + rs[|rs| - 1].points
  }

  /** One more question: the running total and the reasons grow by that question's share. */
  lemma PrefixStep(ps: seq<Penalty>, k: nat, category: string)
    requires k < |ps|
    ensures Uncapped(ps[..k + 1]) == Uncapped(ps[..k]) + ps[k].points
    ensures Emitted(ps[..k + 1], category) == Emitted(ps[..k], category) + ReasonsOf(ps[k], category)
  {
    assert ps[..k + 1][..k] == ps[..k];
  }

  /**
   * A reason is emitted exactly when some question of the table carries its
   * code; it then has that question's points, the category and the code's template.
   */
  lemma {:induction false} EmittedMembership(ps: seq<Penalty>, category: string, r: ReasonCode)
    ensures r in Emitted(ps, category) <==>
            exists i :: 0 <= i < |ps| && ps[i].code.Some? && r == Reason(ps[i].code.value, category, ps[i].points)
  {
    if ps != [] {
      var init := ps[..|ps| - 1];
      EmittedMembership(init, category, r);
      if r in Emitted(ps, category) {
        if r in Emitted(init, category) {
          var i :| 0 <= i < |init| && init[i].code.Some? && r == Reason(init[i].code.value, category, init[i].points);
          assert ps[i] == init[i];
        }
      } else {
        forall i | 0 <= i < |ps| && ps[i].code.Some?
          ensures r != Reason(ps[i].code.value, category, ps[i].points)
        {
          if i < |ps| - 1 {
            assert ps[i] == init[i];
          }
        }
      }
    }
  }

  lemma {:induction false} SumPointsAppend(rs: seq<ReasonCode>, ss: seq<ReasonCode>)
    ensures SumPoints(rs + ss) == SumPoints(rs) + SumPoints(ss)
    decreases |ss|
  {
    if ss != [] {
      assert (rs + ss)[..|rs + ss| - 1] == rs + ss[..|ss| - 1];
      SumPointsAppend(rs, ss[..|ss| - 1]);
    } else {
      assert rs + ss == rs;
    }
  }

  /**
   * Each reason carries exactly the points added alongside it, so a category's
   * reason points never exceed its uncapped sum, and there is at most one reason per question.
   */
  lemma {:induction false} EmittedWithinTally(ps: seq<Penalty>, category: string)
    ensures SumPoints(Emitted(ps, category)) <= Uncapped(ps)
    ensures |Emitted(ps, category)| <= |ps|
  {
    if ps != [] {
      var init := ps[..|ps| - 1];
      EmittedWithinTally(init, category);
      SumPointsAppend(Emitted(init, category), ReasonsOf(ps[|ps| - 1], category));
      assert SumPoints(ReasonsOf(ps[|ps| - 1], category)) <= ps[|ps| - 1].points by {
        var last := ReasonsOf(ps[|ps| - 1], category);
        if last != [] {
          assert last[..0] == [];
        }
      }
    }
  }

  /** A table contributes nothing exactly when every question contributes nothing. */
  lemma {:induction false} UncappedZero(ps: seq<Penalty>)
    ensures Uncapped(ps) == 0 <==> forall i :: 0 <= i < |ps| ==> ps[i].points == 0
  {
    if ps != [] {
      var init := ps[..|ps| - 1];
      UncappedZero(init);
      assert forall i :: 0 <= i < |init| ==> init[i] == ps[i];
    }
  }

  /** A table emits no reason exactly when no question carries a code. */
  lemma {:induction false} EmittedEmpty(ps: seq<Penalty>, category: string)
    ensures Emitted(ps, category) == [] <==> forall i :: 0 <= i < |ps| ==> ps[i].code.None?
  {
    if ps != [] {
      var init := ps[..|ps| - 1];
      EmittedEmpty(init, category);
      assert forall i :: 0 <= i < |init| ==> init[i] == ps[i];
    }
  }

  /** Every emitted reason belongs to the table's category and carries one of the table's codes. */
  lemma EmittedCodes(ps: seq<Penalty>, category: string, codes: set<string>)
    requires forall i :: 0 <= i < |ps| && ps[i].code.Some? ==> ps[i].code.value in codes
    ensures forall r :: r in Emitted(ps, category) ==>
              r.code in codes && r.category == category && r.explanation == Template(r.code)
  {
    forall r | r in Emitted(ps, category)
      ensures r.code in codes && r.category == category && r.explanation == Template(r.code)
    {
      EmittedMembership(ps, category, r);
    }
  }

  // ---------------------------------------------------------------------------
  // The questions
  // ---------------------------------------------------------------------------

  /** `DATA_TYPE_POINTS.get(data_type, 0)`. */
  function PointsFor(dataType: string): nat
  {
    if dataType in DATA_TYPE_POINTS then DATA_TYPE_POINTS[dataType] else 0
  }

  /** The reason code a data type emits; low-sensitivity and unknown types emit none. */
  function SensitivityCode(dataType: string): Option<string>
  {
    if dataType == "iep_504" then Some("SENS-IEP")
    else if dataType == "health" then Some("SENS-HEALTH")
    else if dataType == "behavioral_sel" then Some("SENS-BEHAV")
    else if dataType == "biometrics" then Some("SENS-BIO")
    else if dataType == "precise_location" then Some("SENS-LOC")
    else if dataType == "discipline" || dataType == "attendance_discipline" then Some("SENS-DISC")
    else if dataType == "photos_video_audio" then Some("SENS-MEDIA")
    else None
  }

  function DataTypePenalty(dataType: string): Penalty
  {
    Penalty(PointsFor(dataType), SensitivityCode(dataType))
  }

  /** An answer equal to `trigger` costs `points` with a reason; "unknown" costs `unknownPoints` silently. */
  function TriggeredOrUnknown(answer: string, trigger: string, points: nat, code: string, unknownPoints: nat): Penalty
  {
    if answer == trigger then Penalty(points, Some(code))
    else if answer == "unknown" then Penalty(unknownPoints, None)
    else Penalty(0, None)
  }

  /** Any answer other than "yes" costs `points` with a reason. */
  function UnlessYes(answer: string, points: nat, code: string): Penalty
  {
    if answer != "yes" then Penalty(points, Some(code)) else Penalty(0, None)
  }

  /** Undisclosed subprocessors: "no" costs 4 and "unknown" 3, both explained by EXPO-SUBP. */
  function SubprocessorPenalty(answer: string): Penalty
  {
    if answer == "no" then Penalty(4, Some("EXPO-SUBP"))
    else if answer == "unknown" then Penalty(3, Some("EXPO-SUBP"))
    else Penalty(0, None)
  }

  /** SSO absent or unknown costs 4. */
  function SsoPenalty(answer: string): Penalty
  {
    if answer == "none" || answer == "unknown" then Penalty(4, Some("CTRL-NOSSO")) else Penalty(0, None)
  }

  /** The four-way deletion-process question. */
  function DeletionPenalty(answer: string): Penalty
  {
    if answer == "no" then Penalty(6, Some("POST-NODEL"))
    else if answer == "unknown" then Penalty(5, Some("POST-DELUNK"))
    else if answer == "support_ticket" then Penalty(3, Some("POST-DELUNK"))
    else Penalty(0, None)
  }

  /** Three or more integration types (counted as list entries) cost 2. */
  function BreadthPenalty(integrationTypes: seq<string>): Penalty
  {
    if |integrationTypes| >= 3 then Penalty(2, Some("INT-MULTI")) else Penalty(0, None)
  }

  // ---------------------------------------------------------------------------
  // The category tables, in the order each scorer asks its questions
  // ---------------------------------------------------------------------------

  /** One entry per element of the data-type list, duplicates included. */
  function DataTypeTable(dataTypes: seq<string>): seq<Penalty>
  {
    seq(|dataTypes|, i requires 0 <= i < |dataTypes| => DataTypePenalty(dataTypes[i]))
  }

  /** Unknown data types are a single fixed penalty, whatever the list holds. */
  function SensitivityPenalties(a: AssessmentAnswers): seq<Penalty>
  {
    if a.dataTypesUnknown then [Penalty(10, Some("SENS-UNK"))] else DataTypeTable(a.dataTypes)
  }

  function ExposurePenalties(a: AssessmentAnswers): seq<Penalty>
  {
    [ TriggeredOrUnknown(a.thirdPartySharing, "yes", 6, "EXPO-SHARE", 4),
      TriggeredOrUnknown(a.usedForAdvertising, "yes", 5, "EXPO-ADS", 3),
      TriggeredOrUnknown(a.usedForAiTraining, "yes", 4, "EXPO-AI", 2),
      TriggeredOrUnknown(a.dataSold, "yes", 6, "EXPO-SOLD", 4),
      SubprocessorPenalty(a.subprocessorsDisclosed),
      TriggeredOrUnknown(a.dataRegion, "global", 3, "EXPO-GLOBAL", 2),
      TriggeredOrUnknown(a.storageLocation, "both", 2, "EXPO-BOTH", 2) ]
  }

  function SecurityPenalties(a: AssessmentAnswers): seq<Penalty>
  {
    [ SsoPenalty(a.ssoSupported),
      UnlessYes(a.mfaAvailable, 4, "CTRL-NOMFA"),
      UnlessYes(a.rbacAvailable, 3, "CTRL-NORBAC"),
      UnlessYes(a.encryptionTransit, 3, "CTRL-NOTRANS"),
      UnlessYes(a.encryptionRest, 3, "CTRL-NOREST"),
      UnlessYes(a.auditLogsAvailable, 3, "CTRL-NOAUDIT") ]
  }

  function PosturePenalties(a: AssessmentAnswers): seq<Penalty>
  {
    [ UnlessYes(a.retentionPolicyStated, 6, "POST-RETUNK"),
      DeletionPenalty(a.deletionProcess) ]
  }

  function IntegrationPenalties(a: AssessmentAnswers): seq<Penalty>
  {
    [ TriggeredOrUnknown(a.integrationMethod, "api_key", 3, "INT-APIKEY", 2),
      TriggeredOrUnknown(a.integrationFrequency, "realtime", 3, "INT-REALTIME", 1),
      TriggeredOrUnknown(a.sisWriteback, "yes", 3, "INT-SISWB", 2),
      BreadthPenalty(a.integrationTypes) ]
  }

  /** The five category scores and reason lists the scorers must produce. */
  function SensitivityScore(a: AssessmentAnswers): int { Min(Uncapped(SensitivityPenalties(a)), SENSITIVITY_CAP) }
  function ExposureScore(a: AssessmentAnswers): int { Min(Uncapped(ExposurePenalties(a)), EXPOSURE_CAP) }
  function SecurityScore(a: AssessmentAnswers): int { Min(Uncapped(SecurityPenalties(a)), SECURITY_CAP) }
  function PostureScore(a: AssessmentAnswers): int { Min(Uncapped(PosturePenalties(a)), POSTURE_CAP) }
  function IntegrationScore(a: AssessmentAnswers): int { Min(Uncapped(IntegrationPenalties(a)), INTEGRATION_CAP) }

  function SensitivityReasons(a: AssessmentAnswers): seq<ReasonCode> { Emitted(SensitivityPenalties(a), SENSITIVITY) }
  function ExposureReasons(a: AssessmentAnswers): seq<ReasonCode> { Emitted(ExposurePenalties(a), EXPOSURE) }
  function SecurityReasons(a: AssessmentAnswers): seq<ReasonCode> { Emitted(SecurityPenalties(a), SECURITY) }
  function PostureReasons(a: AssessmentAnswers): seq<ReasonCode> { Emitted(PosturePenalties(a), POSTURE) }
  function IntegrationReasons(a: AssessmentAnswers): seq<ReasonCode> { Emitted(IntegrationPenalties(a), INTEGRATION) }

  // ---------------------------------------------------------------------------
  // One question at a time: the `if`/`elif` blocks of the scorers
  // ---------------------------------------------------------------------------

  // The running `score` and `reasons` of a scorer always equal the tally of
  // the questions asked so far, kept in the ghost sequence `asked`; each block
  // extends `asked` by its own penalty.

  method ApplyTriggeredOrUnknown(score: int, reasons: seq<ReasonCode>, ghost asked: seq<Penalty>,
      answer: string, trigger: string, points: nat, code: string, unknownPoints: nat, category: string)
    returns (score': int, reasons': seq<ReasonCode>, ghost asked': seq<Penalty>)
    requires score == Uncapped(asked) && reasons == Emitted(asked, category)
    ensures score' == score + TriggeredOrUnknown(answer, trigger, points, code, unknownPoints).points
    ensures reasons' == reasons + ReasonsOf(TriggeredOrUnknown(answer, trigger, points, code, unknownPoints), category)
    ensures asked' == asked + [TriggeredOrUnknown(answer, trigger, points, code, unknownPoints)]
    ensures score' == Uncapped(asked') && reasons' == Emitted(asked', category)
  {
    asked' := asked + [TriggeredOrUnknown(answer, trigger, points, code, unknownPoints)];
    assert asked'[..|asked|] == asked;
    score', reasons' := score, reasons;
    if answer == trigger {
      score' := score' + points;
      reasons' := reasons' + [Reason(code, category, points)];
    } else if answer == "unknown" {
      score' := score' + unknownPoints;
    }
  }

  method ApplyUnlessYes(score: int, reasons: seq<ReasonCode>, ghost asked: seq<Penalty>,
      answer: string, points: nat, code: string, category: string)
    returns (score': int, reasons': seq<ReasonCode>, ghost asked': seq<Penalty>)
    requires score == Uncapped(asked) && reasons == Emitted(asked, category)
    ensures score' == score + UnlessYes(answer, points, code).points
    ensures reasons' == reasons + ReasonsOf(UnlessYes(answer, points, code), category)
    ensures asked' == asked + [UnlessYes(answer, points, code)]
    ensures score' == Uncapped(asked') && reasons' == Emitted(asked', category)
  {
    asked' := asked + [UnlessYes(answer, points, code)];
    assert asked'[..|asked|] == asked;
    score', reasons' := score, reasons;
    if answer != "yes" {
      score' := score' + points;
      reasons' := reasons' + [Reason(code, category, points)];
    }
  }

  method ApplySubprocessorPenalty(score: int, reasons: seq<ReasonCode>, ghost asked: seq<Penalty>,
      answer: string)
    returns (score': int, reasons': seq<ReasonCode>, ghost asked': seq<Penalty>)
    requires score == Uncapped(asked) && reasons == Emitted(asked, EXPOSURE)
    ensures score' == score + SubprocessorPenalty(answer).points
    ensures reasons' == reasons + ReasonsOf(SubprocessorPenalty(answer), EXPOSURE)
    ensures asked' == asked + [SubprocessorPenalty(answer)]
    ensures score' == Uncapped(asked') && reasons' == Emitted(asked', EXPOSURE)
  {
    asked' := asked + [SubprocessorPenalty(answer)];
    assert asked'[..|asked|] == asked;
    score', reasons' := score, reasons;
    if answer == "no" {
      score' := score' + 4;
      reasons' := reasons' + [Reason("EXPO-SUBP", EXPOSURE, 4)];
    } else if answer == "unknown" {
      score' := score' + 3;
      reasons' := reasons' + [Reason("EXPO-SUBP", EXPOSURE, 3)];
    }
  }

  method ApplySsoPenalty(score: int, reasons: seq<ReasonCode>, ghost asked: seq<Penalty>,
      answer: string)
    returns (score': int, reasons': seq<ReasonCode>, ghost asked': seq<Penalty>)
    requires score == Uncapped(asked) && reasons == Emitted(asked, SECURITY)
    ensures score' == score + SsoPenalty(answer).points
    ensures reasons' == reasons + ReasonsOf(SsoPenalty(answer), SECURITY)
    ensures asked' == asked + [SsoPenalty(answer)]
    ensures score' == Uncapped(asked') && reasons' == Emitted(asked', SECURITY)
  {
    asked' := asked + [SsoPenalty(answer)];
    assert asked'[..|asked|] == asked;
    score', reasons' := score, reasons;
    if answer in ["none", "unknown"] {
      score' := score' + 4;
      reasons' := reasons' + [Reason("CTRL-NOSSO", SECURITY, 4)];
    }
  }

  method ApplyDeletionPenalty(score: int, reasons: seq<ReasonCode>, ghost asked: seq<Penalty>,
      answer: string)
    returns (score': int, reasons': seq<ReasonCode>, ghost asked': seq<Penalty>)
    requires score == Uncapped(asked) && reasons == Emitted(asked, POSTURE)
    ensures score' == score + DeletionPenalty(answer).points
    ensures reasons' == reasons + ReasonsOf(DeletionPenalty(answer), POSTURE)
    ensures asked' == asked + [DeletionPenalty(answer)]
    ensures score' == Uncapped(asked') && reasons' == Emitted(asked', POSTURE)
  {
    asked' := asked + [DeletionPenalty(answer)];
    assert asked'[..|asked|] == asked;
    score', reasons' := score, reasons;
    if answer == "no" {
      score' := score' + 6;
      reasons' := reasons' + [Reason("POST-NODEL", POSTURE, 6)];
    } else if answer == "unknown" {
      score' := score' + 5;
      reasons' := reasons' + [Reason("POST-DELUNK", POSTURE, 5)];
    } else if answer == "support_ticket" {
      score' := score' + 3;
      reasons' := reasons' + [Reason("POST-DELUNK", POSTURE, 3)];
    }
  }

  method ApplyBreadthPenalty(score: int, reasons: seq<ReasonCode>, ghost asked: seq<Penalty>,
      integrationTypes: seq<string>)
    returns (score': int, reasons': seq<ReasonCode>, ghost asked': seq<Penalty>)
    requires score == Uncapped(asked) && reasons == Emitted(asked, INTEGRATION)
    ensures score' == score + BreadthPenalty(integrationTypes).points
    ensures reasons' == reasons + ReasonsOf(BreadthPenalty(integrationTypes), INTEGRATION)
    ensures asked' == asked + [BreadthPenalty(integrationTypes)]
    ensures score' == Uncapped(asked') && reasons' == Emitted(asked', INTEGRATION)
  {
    asked' := asked + [BreadthPenalty(integrationTypes)];
    assert asked'[..|asked|] == asked;
    score', reasons' := score, reasons;
    if |integrationTypes| >= 3 {
      score' := score' + 2;
      reasons' := reasons' + [Reason("INT-MULTI", INTEGRATION, 2)];
    }
  }

  // ---------------------------------------------------------------------------
  // The five scorers
  // ---------------------------------------------------------------------------

  method CalculateSensitivityScore(a: AssessmentAnswers) returns (score: int, reasons: seq<ReasonCode>)
    ensures score == SensitivityScore(a) && reasons == SensitivityReasons(a)
    ensures 0 <= score <= SENSITIVITY_CAP
  {
    score, reasons := 0, [];
    if a.dataTypesUnknown {
      score := score + 10;
      reasons := reasons + [Reason("SENS-UNK", SENSITIVITY, 10)];
      assert [Penalty(10, Some("SENS-UNK"))][..0] == [];
      return Min(score, SENSITIVITY_CAP), reasons;
    }
    ghost var table := SensitivityPenalties(a);
    assert table[..0] == [];
    for i := 0 to |a.dataTypes|
      invariant score == Uncapped(table[..i]) && reasons == Emitted(table[..i], SENSITIVITY)
    {
      var dataType := a.dataTypes[i];
      var points := PointsFor(dataType);
      score := score + points;
      if dataType == "iep_504" {
        reasons := reasons + [Reason("SENS-IEP", SENSITIVITY, points)];
      } else if dataType == "health" {
        reasons := reasons + [Reason("SENS-HEALTH", SENSITIVITY, points)];
      } else if dataType == "behavioral_sel" {
        reasons := reasons + [Reason("SENS-BEHAV", SENSITIVITY, points)];
      } else if dataType == "biometrics" {
        reasons := reasons + [Reason("SENS-BIO", SENSITIVITY, points)];
      } else if dataType == "precise_location" {
        reasons := reasons + [Reason("SENS-LOC", SENSITIVITY, points)];
      } else if dataType == "discipline" || dataType == "attendance_discipline" {
        reasons := reasons + [Reason("SENS-DISC", SENSITIVITY, points)];
      } else if dataType == "photos_video_audio" {
        reasons := reasons + [Reason("SENS-MEDIA", SENSITIVITY, points)];
      }
      PrefixStep(table, i, SENSITIVITY);
    }
    assert table[..|a.dataTypes|] == table;
    score := Min(score, SENSITIVITY_CAP);
  }

  method CalculateExposureScore(a: AssessmentAnswers) returns (score: int, reasons: seq<ReasonCode>)
    ensures score == ExposureScore(a) && reasons == ExposureReasons(a)
    ensures 0 <= score <= EXPOSURE_CAP
  {
    ghost var asked: seq<Penalty> := [];
    score, reasons := 0, [];
    score, reasons, asked := ApplyTriggeredOrUnknown(score, reasons, asked, a.thirdPartySharing, "yes", 6, "EXPO-SHARE", 4, EXPOSURE);
    score, reasons, asked := ApplyTriggeredOrUnknown(score, reasons, asked, a.usedForAdvertising, "yes", 5, "EXPO-ADS", 3, EXPOSURE);
    score, reasons, asked := ApplyTriggeredOrUnknown(score, reasons, asked, a.usedForAiTraining, "yes", 4, "EXPO-AI", 2, EXPOSURE);
    score, reasons, asked := ApplyTriggeredOrUnknown(score, reasons, asked, a.dataSold, "yes", 6, "EXPO-SOLD", 4, EXPOSURE);
    score, reasons, asked := ApplySubprocessorPenalty(score, reasons, asked, a.subprocessorsDisclosed);
    score, reasons, asked := ApplyTriggeredOrUnknown(score, reasons, asked, a.dataRegion, "global", 3, "EXPO-GLOBAL", 2, EXPOSURE);
    score, reasons, asked := ApplyTriggeredOrUnknown(score, reasons, asked, a.storageLocation, "both", 2, "EXPO-BOTH", 2, EXPOSURE);
    assert asked == ExposurePenalties(a);
    score := Min(score, EXPOSURE_CAP);
  }

  method CalculateSecurityScore(a: AssessmentAnswers) returns (score: int, reasons: seq<ReasonCode>)
    ensures score == SecurityScore(a) && reasons == SecurityReasons(a)
    ensures 0 <= score <= SECURITY_CAP
  {
    ghost var asked: seq<Penalty> := [];
    score, reasons := 0, [];
    score, reasons, asked := ApplySsoPenalty(score, reasons, asked, a.ssoSupported);
    score, reasons, asked := ApplyUnlessYes(score, reasons, asked, a.mfaAvailable, 4, "CTRL-NOMFA", SECURITY);
    score, reasons, asked := ApplyUnlessYes(score, reasons, asked, a.rbacAvailable, 3, "CTRL-NORBAC", SECURITY);
    score, reasons, asked := ApplyUnlessYes(score, reasons, asked, a.encryptionTransit, 3, "CTRL-NOTRANS", SECURITY);
    score, reasons, asked := ApplyUnlessYes(score, reasons, asked, a.encryptionRest, 3, "CTRL-NOREST", SECURITY);
    score, reasons, asked := ApplyUnlessYes(score, reasons, asked, a.auditLogsAvailable, 3, "CTRL-NOAUDIT", SECURITY);
    assert asked == SecurityPenalties(a);
    score := Min(score, SECURITY_CAP);
  }

  method CalculatePostureScore(a: AssessmentAnswers) returns (score: int, reasons: seq<ReasonCode>)
    ensures score == PostureScore(a) && reasons == PostureReasons(a)
    ensures 0 <= score <= POSTURE_CAP
  {
    ghost var asked: seq<Penalty> := [];
    score, reasons := 0, [];
    score, reasons, asked := ApplyUnlessYes(score, reasons, asked, a.retentionPolicyStated, 6, "POST-RETUNK", POSTURE);
    score, reasons, asked := ApplyDeletionPenalty(score, reasons, asked, a.deletionProcess);
    assert asked == PosturePenalties(a);
    score := Min(score, POSTURE_CAP);
  }

  method CalculateIntegrationScore(a: AssessmentAnswers) returns (score: int, reasons: seq<ReasonCode>)
    ensures score == IntegrationScore(a) && reasons == IntegrationReasons(a)
    ensures 0 <= score <= INTEGRATION_CAP
  {
    ghost var asked: seq<Penalty> := [];
    score, reasons := 0, [];
    score, reasons, asked := ApplyTriggeredOrUnknown(score, reasons, asked, a.integrationMethod, "api_key", 3, "INT-APIKEY", 2, INTEGRATION);
    score, reasons, asked := ApplyTriggeredOrUnknown(score, reasons, asked, a.integrationFrequency, "realtime", 3, "INT-REALTIME", 1, INTEGRATION);
    score, reasons, asked := ApplyTriggeredOrUnknown(score, reasons, asked, a.sisWriteback, "yes", 3, "INT-SISWB", 2, INTEGRATION);
    score, reasons, asked := ApplyBreadthPenalty(score, reasons, asked, a.integrationTypes);
    assert asked == IntegrationPenalties(a);
    score := Min(score, INTEGRATION_CAP);
  }

  // ---------------------------------------------------------------------------
  // Tier, combination, serialisation
  // ---------------------------------------------------------------------------

  /** `determine_risk_tier`: the same four bands as the stored tier. */
  function DetermineRiskTier(score: int): (tier: string)
    ensures tier == "Low" <==> score <= 25
    ensures tier == "Moderate" <==> 25 < score <= 50
    ensures tier == "High" <==> 50 < score <= 75
    ensures tier == "Critical" <==> 75 < score
  {
    if score <= 25 then "Low"
    else if score <= 50 then "Moderate"
    else if score <= 75 then "High"
    else "Critical"
  }

  /** The sum of the five category scores, clamped to 100. */
  function TotalScore(a: AssessmentAnswers): int
  {
    Min(SensitivityScore(a) + ExposureScore(a) + SecurityScore(a) + PostureScore(a) + IntegrationScore(a), TOTAL_CAP)
  }

  /** All reasons before sorting: the five categories concatenated in scorer order. */
  function AllReasons(a: AssessmentAnswers): seq<ReasonCode>
  {
    SensitivityReasons(a) + ExposureReasons(a) + SecurityReasons(a) + PostureReasons(a) + IntegrationReasons(a)
  }

  function Breakdown(a: AssessmentAnswers): map<string, int>
  {
    map[
      "sensitivity" := SensitivityScore(a),
      "exposure" := ExposureScore(a),
      "security_controls" := SecurityScore(a),
      "vendor_posture" := PostureScore(a),
      "integration_blast_radius" := IntegrationScore(a)
    ]
  }

  /**
   * `calculate_risk_score`: the reasons come out ordered by points, highest
   * first, and are a stable reordering of the concatenated category reasons.
   */
  method CalculateRiskScore(a: AssessmentAnswers) returns (result: ScoreResult)
    ensures result.total == TotalScore(a) && 0 <= result.total <= TOTAL_CAP
    ensures result.breakdown == Breakdown(a)
    ensures result.riskTier == DetermineRiskTier(result.total)
    ensures result.reasonCodes == SortDescending(AllReasons(a), Points)
    ensures NonIncreasing(result.reasonCodes, Points)
    ensures multiset(result.reasonCodes) == multiset(AllReasons(a))
    ensures forall k :: WithKey(result.reasonCodes, Points, k) == WithKey(AllReasons(a), Points, k)
  {
    var sensScore, sensReasons := CalculateSensitivityScore(a);
    var expoScore, expoReasons := CalculateExposureScore(a);
    var secScore, secReasons := CalculateSecurityScore(a);
    var postScore, postReasons := CalculatePostureScore(a);
    var intScore, intReasons := CalculateIntegrationScore(a);

    var total := sensScore + expoScore + secScore + postScore + intScore;
    total := Min(total, TOTAL_CAP);

    var breakdown := map[
      "sensitivity" := sensScore,
      "exposure" := expoScore,
      "security_controls" := secScore,
      "vendor_posture" := postScore,
      "integration_blast_radius" := intScore
    ];

    var allReasons := sensReasons + expoReasons + secReasons + postReasons + intReasons;
    allReasons := SortDescending(allReasons, Points);
    SortDescendingOrdered(AllReasons(a), Points);
    SortDescendingPermutation(AllReasons(a), Points);
    forall k
      ensures WithKey(allReasons, Points, k) == WithKey(AllReasons(a), Points, k)
    {
      SortDescendingStable(AllReasons(a), Points, k);
    }

    result := ScoreResult(total, breakdown, allReasons, DetermineRiskTier(total));
  }

  /** A value of a serialised reason. */
  datatype JsonValue = JString(s: string) | JInt(n: int) | JExplanation(e: Explanation)

  /** `reason_codes_to_json`: one four-key object per reason, in order. */
  function ReasonCodesToJson(reasons: seq<ReasonCode>): (json: seq<map<string, JsonValue>>)
    ensures |json| == |reasons|
    ensures forall i :: 0 <= i < |json| ==> json[i].Keys == {"code", "explanation", "category", "points"}
  {
    seq(|reasons|, i requires 0 <= i < |reasons| =>
      map["code" := JString(reasons[i].code),
          "explanation" := JExplanation(reasons[i].explanation),
          "category" := JString(reasons[i].category),
          "points" := JInt(reasons[i].points)])
  }

  /** Reads a serialised reason back; `None` when a key is missing or holds the wrong kind of value. */
  function ReasonFromJson(json: map<string, JsonValue>): Option<ReasonCode>
  {
    if "code" in json && json["code"].JString? &&
       "explanation" in json && json["explanation"].JExplanation? &&
       "category" in json && json["category"].JString? &&
       "points" in json && json["points"].JInt?
    then Some(ReasonCode(json["code"].s, json["explanation"].e, json["category"].s, json["points"].n))
    else None
  }
}
