/**
 * The answer sets of the repository's test fixtures, and what the scoring
 * engine makes of them: category scores, total, tier and reasons.
 */
module ScoringExamples {
  import opened AssessmentSchema
  import opened Scoring
  import opened ScoringProperties

  /** A well-configured vendor holding only directory data and login identifiers. */
  function LowRiskAnswers(): (a: AssessmentAnswers)
    ensures a.Valid()
  {
    AssessmentAnswers(
      ["directory_info", "auth_identifiers"], false,
      "vendor_cloud", "us_only", "yes", "yes", "self_serve",
      "entra", "yes", "yes", "yes", "yes", "yes",
      "no", "no", "no", "no",
      ["sso"], "oauth", "nightly", "no")
  }

  /** A vendor holding special-category data with weak controls and a broad integration. */
  function HighRiskAnswers(): (a: AssessmentAnswers)
    ensures a.Valid()
  {
    AssessmentAnswers(
      ["iep_504", "health", "behavioral_sel", "biometrics", "academic_records", "directory_info"], false,
      "both", "global", "no", "no", "no",
      "none", "no", "unknown", "unknown", "no", "no",
      "yes", "yes", "yes", "unknown",
      ["sis", "lms", "api"], "api_key", "realtime", "yes")
  }

  /** The worst answer to every question, with nine weighted data types. */
  function WorstAnswers(): (a: AssessmentAnswers)
    ensures a.Valid()
  {
    AssessmentAnswers(
      ["iep_504", "health", "behavioral_sel", "biometrics", "precise_location", "discipline",
       "photos_video_audio", "staff_notes", "academic_records"], false,
      "both", "global", "no", "no", "no",
      "none", "no", "no", "no", "no", "no",
      "yes", "yes", "yes", "yes",
      ["sis", "lms", "api", "sso"], "api_key", "realtime", "yes")
  }

  /** The same answers with a different data-type list. */
  function WithDataTypes(a: AssessmentAnswers, dataTypes: seq<string>): (b: AssessmentAnswers)
    ensures b.dataTypes == dataTypes && b.dataTypesUnknown == a.dataTypesUnknown
  {
    a.(dataTypes := dataTypes)
  }

  /** The six heaviest data types weigh 44 together. */
  lemma HeaviestListedPoints()
    ensures ListedPoints(["iep_504", "health", "behavioral_sel", "biometrics", "precise_location", "discipline"]) == 44
  {
  }

  /** Media, staff notes and academic records weigh 11 together. */
  lemma LightListedPoints()
    ensures ListedPoints(["photos_video_audio", "staff_notes", "academic_records"]) == 11
  {
  }

  /** The nine data types of the worst answers weigh 55 together. */
  lemma WorstListedPoints()
    ensures ListedPoints(WorstAnswers().dataTypes) == 55
  {
    var heavy := ["iep_504", "health", "behavioral_sel", "biometrics", "precise_location", "discipline"];
    var light := ["photos_video_audio", "staff_notes", "academic_records"];
    assert WorstAnswers().dataTypes == heavy + light;
    ListedPointsAppend(heavy, light);
    HeaviestListedPoints();
    LightListedPoints();
  }

  /** The six data types of the high-risk fixture weigh 36 together. */
  lemma HighRiskListedPoints()
    ensures ListedPoints(HighRiskAnswers().dataTypes) == 36
  {
  }

  /** Untouched answers score 0 + 20 + 20 + 11 + 5 = 56, "High": every "unknown" costs points. */
  lemma DefaultAnswersScore()
    ensures SensitivityScore(DefaultAnswers()) == 0
    ensures ExposureScore(DefaultAnswers()) == 20
    ensures SecurityScore(DefaultAnswers()) == 20
    ensures PostureScore(DefaultAnswers()) == 11
    ensures IntegrationScore(DefaultAnswers()) == 5
    ensures TotalScore(DefaultAnswers()) == 56
    ensures DetermineRiskTier(TotalScore(DefaultAnswers())) == "High"
  {
    var a := DefaultAnswers();
    SensitivityIsCappedSum(a);
    ExposureScoreIsSum(a);
    SecurityScoreIsSum(a);
    PostureRules(a);
    IntegrationScoreIsSum(a);
  }

  /** The low-risk fixture scores 3, "Low". */
  lemma LowRiskScore()
    ensures SensitivityScore(LowRiskAnswers()) == 3
    ensures ExposureScore(LowRiskAnswers()) == 0
    ensures SecurityScore(LowRiskAnswers()) == 0
    ensures PostureScore(LowRiskAnswers()) == 0
    ensures IntegrationScore(LowRiskAnswers()) == 0
    ensures TotalScore(LowRiskAnswers()) == 3
    ensures DetermineRiskTier(TotalScore(LowRiskAnswers())) == "Low"
  {
    var a := LowRiskAnswers();
    SensitivityIsCappedSum(a);
    ExposureScoreIsSum(a);
    SecurityScoreIsSum(a);
    PostureRules(a);
    IntegrationScoreIsSum(a);
  }

  /** The low-risk fixture gives no reason in any category. */
  lemma LowRiskIsSilent()
    ensures AllReasons(LowRiskAnswers()) == []
  {
    LowSensitivityIsSilent(LowRiskAnswers());
    LowRiskExposureIsSilent();
    LowRiskSecurityIsSilent();
    LowRiskPostureIsSilent();
    LowRiskIntegrationIsSilent();
  }

  lemma LowRiskExposureIsSilent()
    ensures ExposureReasons(LowRiskAnswers()) == []
  {
    EmittedEmpty(ExposurePenalties(LowRiskAnswers()), EXPOSURE);
  }

  lemma LowRiskSecurityIsSilent()
    ensures SecurityReasons(LowRiskAnswers()) == []
  {
    EmittedEmpty(SecurityPenalties(LowRiskAnswers()), SECURITY);
  }

  lemma LowRiskPostureIsSilent()
    ensures PostureReasons(LowRiskAnswers()) == []
  {
    EmittedEmpty(PosturePenalties(LowRiskAnswers()), POSTURE);
  }

  lemma LowRiskIntegrationIsSilent()
    ensures IntegrationReasons(LowRiskAnswers()) == []
  {
    EmittedEmpty(IntegrationPenalties(LowRiskAnswers()), INTEGRATION);
  }

  /** The high-risk fixture scores 30 + 25 + 20 + 12 + 10 = 97, "Critical"; three categories hit their cap. */
  lemma HighRiskScore()
    ensures SensitivityScore(HighRiskAnswers()) == 30
    ensures ExposureScore(HighRiskAnswers()) == 25
    ensures SecurityScore(HighRiskAnswers()) == 20
    ensures PostureScore(HighRiskAnswers()) == 12
    ensures IntegrationScore(HighRiskAnswers()) == 10
    ensures TotalScore(HighRiskAnswers()) == 97
    ensures DetermineRiskTier(TotalScore(HighRiskAnswers())) == "Critical"
  {
    var a := HighRiskAnswers();
    SensitivityIsCappedSum(a);
    HighRiskListedPoints();
    ExposureScoreIsSum(a);
    SecurityScoreIsSum(a);
    PostureRules(a);
    IntegrationScoreIsSum(a);
  }

  /**
   * The worst answers reach every category cap but posture's, which no answers
   * can reach (6 + 6 = 12 < 15): 30 + 25 + 20 + 12 + 10 = 97, below the total cap of 100.
   */
  lemma WorstAnswersScore()
    ensures SensitivityScore(WorstAnswers()) == SENSITIVITY_CAP
    ensures ExposureScore(WorstAnswers()) == EXPOSURE_CAP
    ensures SecurityScore(WorstAnswers()) == SECURITY_CAP
    ensures IntegrationScore(WorstAnswers()) == INTEGRATION_CAP
    ensures TotalScore(WorstAnswers()) == 97
  {
    var a := WorstAnswers();
    SensitivityIsCappedSum(a);
    WorstListedPoints();
    ExposureScoreIsSum(a);
    SecurityScoreIsSum(a);
    PostureRules(a);
    IntegrationScoreIsSum(a);
  }

  /** Directory data and login identifiers weigh 2 + 1 and say nothing. */
  lemma LowSensitivityExample()
    ensures SensitivityScore(WithDataTypes(DefaultAnswers(), ["directory_info", "auth_identifiers"])) == 3
    ensures SensitivityReasons(WithDataTypes(DefaultAnswers(), ["directory_info", "auth_identifiers"])) == []
  {
    var a := WithDataTypes(DefaultAnswers(), ["directory_info", "auth_identifiers"]);
    SensitivityIsCappedSum(a);
    LowSensitivityIsSilent(a);
  }

  /** IEP/504 plans, health data and directory data weigh 8 + 8 + 2, with one reason each for the first two. */
  lemma MixedSensitivityExample()
    ensures SensitivityScore(WithDataTypes(DefaultAnswers(), ["iep_504", "health", "directory_info"])) == 18
    ensures SensitivityReasons(WithDataTypes(DefaultAnswers(), ["iep_504", "health", "directory_info"])) ==
            [Reason("SENS-IEP", SENSITIVITY, 8), Reason("SENS-HEALTH", SENSITIVITY, 8)]
  {
    var a := WithDataTypes(DefaultAnswers(), ["iep_504", "health", "directory_info"]);
    SensitivityIsCappedSum(a);
    var table := DataTypeTable(a.dataTypes);
    assert table[..0] == [];
    PrefixStep(table, 0, SENSITIVITY);
    PrefixStep(table, 1, SENSITIVITY);
    PrefixStep(table, 2, SENSITIVITY);
    assert table[..3] == table;
  }

  /** The six heaviest types weigh 44 together and are capped at 30. */
  lemma SensitivityCapExample()
    ensures SensitivityScore(WithDataTypes(DefaultAnswers(),
              ["iep_504", "health", "behavioral_sel", "biometrics", "precise_location", "discipline"])) == 30
  {
    var a := WithDataTypes(DefaultAnswers(),
               ["iep_504", "health", "behavioral_sel", "biometrics", "precise_location", "discipline"]);
    SensitivityIsCappedSum(a);
    HeaviestListedPoints();
  }

  /** Three entries of the same integration type count as three: INT-MULTI is reported. */
  lemma RepeatedIntegrationTypeCounts()
    ensures "INT-MULTI" in CodesOf(IntegrationReasons(DefaultAnswers().(integrationTypes := ["sis", "sis", "sis"])))
  {
    MultipleIntegrationsIff(DefaultAnswers().(integrationTypes := ["sis", "sis", "sis"]));
  }

  /**
   * Support-ticket deletion on otherwise default answers: the retention question
   * keeps its "unknown" default and still adds 6, so posture is 6 + 3 = 9.
   */
  lemma SupportTicketOnDefaultsScoresNine()
    ensures PostureScore(DefaultAnswers().(deletionProcess := "support_ticket")) == 9
    ensures "POST-RETUNK" in CodesOf(PostureReasons(DefaultAnswers().(deletionProcess := "support_ticket")))
    ensures "POST-DELUNK" in CodesOf(PostureReasons(DefaultAnswers().(deletionProcess := "support_ticket")))
  {
    PostureRules(DefaultAnswers().(deletionProcess := "support_ticket"));
  }

  /** With a stated retention policy, support-ticket deletion alone costs 3. */
  lemma SupportTicketAloneScoresThree()
    ensures PostureScore(DefaultAnswers().(retentionPolicyStated := "yes", deletionProcess := "support_ticket")) == 3
    ensures PostureReasons(DefaultAnswers().(retentionPolicyStated := "yes", deletionProcess := "support_ticket")) ==
            [Reason("POST-DELUNK", POSTURE, 3)]
  {
    var a := DefaultAnswers().(retentionPolicyStated := "yes", deletionProcess := "support_ticket");
    PostureRules(a);
    var table := PosturePenalties(a);
    assert table[..0] == [];
    PrefixStep(table, 0, POSTURE);
    PrefixStep(table, 1, POSTURE);
    assert table[..2] == table;
  }
}
