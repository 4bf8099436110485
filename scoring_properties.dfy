/**
 * What the scoring engine promises, stated over the penalty tables of the
 * scorers and over the combined result: the unknown-data override, the list
 * semantics of the data types, the reason/penalty correspondence, the
 * category rules, the bounds of the breakdown, the order of the stored
 * reasons and the agreement of the two tier mappers.
 */
module ScoringProperties {
  import opened Wrappers
  import opened StableSort
  import AssessmentModel
  import opened AssessmentSchema
  import opened Scoring

  /** The codes of a list of reasons. */
  function CodesOf(reasons: seq<ReasonCode>): set<string>
  {
    set r | r in reasons :: r.code
  }

  /** The data types that come with a reason of their own. */
  const EXPLAINED_DATA_TYPES: set<string> := {
    "iep_504", "health", "behavioral_sel", "biometrics", "precise_location",
    "discipline", "attendance_discipline", "photos_video_audio"
  }

  /** Reference sum of the data-type weights, element by element from the front. */
  function ListedPoints(dataTypes: seq<string>): nat
  {
    if dataTypes == [] then 0 else PointsFor(dataTypes[0]) + ListedPoints(dataTypes[1..])
  }

  // ---------------------------------------------------------------------------
  // Tables in general
  // ---------------------------------------------------------------------------

  /** A code appears among the reasons exactly when some question of the table carries it. */
  lemma CodeEmitted(ps: seq<Penalty>, category: string, code: string)
    ensures code in CodesOf(Emitted(ps, category)) <==> exists i :: 0 <= i < |ps| && ps[i].code == Some(code)
  {
    if code in CodesOf(Emitted(ps, category)) {
      var r :| r in Emitted(ps, category) && r.code == code;
      EmittedMembership(ps, category, r);
    }
    if i :| 0 <= i < |ps| && ps[i].code == Some(code) {
      EmittedMembership(ps, category, Reason(code, category, ps[i].points));
    }
  }

  /** When only question `k` can carry `code`, the code appears exactly when that question emits it. */
  lemma CodeFromOneQuestion(ps: seq<Penalty>, category: string, code: string, k: nat)
    requires k < |ps|
    requires forall i :: 0 <= i < |ps| && i != k ==> ps[i].code != Some(code)
    ensures code in CodesOf(Emitted(ps, category)) <==> ps[k].code == Some(code)
  {
    CodeEmitted(ps, category, code);
  }

  /** A table of one question tallies its contribution. */
  lemma UncappedOfOne(ps: seq<Penalty>)
    requires |ps| == 1
    ensures Uncapped(ps) == ps[0].points
  {
    assert ps[..0] == [];
  }

  /** A table of two questions tallies its two contributions. */
  lemma UncappedOfTwo(ps: seq<Penalty>)
    requires |ps| == 2
    ensures Uncapped(ps) == ps[0].points + ps[1].points
  {
    UncappedOfOne(ps[..1]);
  }

  /** A table of three questions tallies its three contributions. */
  lemma UncappedOfThree(ps: seq<Penalty>)
    requires |ps| == 3
    ensures Uncapped(ps) == ps[0].points + ps[1].points + ps[2].points
  {
    UncappedOfTwo(ps[..2]);
  }

  /** A table of four questions tallies its four contributions. */
  lemma UncappedOfFour(ps: seq<Penalty>)
    requires |ps| == 4
    ensures Uncapped(ps) == ps[0].points + ps[1].points + ps[2].points + ps[3].points
  {
    UncappedOfThree(ps[..3]);
  }

  /** A table of five questions tallies its five contributions. */
  lemma UncappedOfFive(ps: seq<Penalty>)
    requires |ps| == 5
    ensures Uncapped(ps) == ps[0].points + ps[1].points + ps[2].points + ps[3].points + ps[4].points
  {
    UncappedOfFour(ps[..4]);
  }

  /** A table of six questions tallies its six contributions. */
  lemma UncappedOfSix(ps: seq<Penalty>)
    requires |ps| == 6
    ensures Uncapped(ps) == ps[0].points + ps[1].points + ps[2].points + ps[3].points + ps[4].points + ps[5].points
  {
    UncappedOfFive(ps[..5]);
  }

  /** A table of seven questions tallies its seven contributions. */
  lemma UncappedOfSeven(ps: seq<Penalty>)
    requires |ps| == 7
    ensures Uncapped(ps) == ps[0].points + ps[1].points + ps[2].points + ps[3].points + ps[4].points + ps[5].points + ps[6].points
  {
    UncappedOfSix(ps[..6]);
  }

  /** When question `k` is the only one with a code, the table emits exactly its reason. */
  lemma {:induction false} EmittedOnly(ps: seq<Penalty>, category: string, k: nat)
    requires k < |ps|
    requires forall i :: 0 <= i < |ps| && i != k ==> ps[i].code.None?
    ensures Emitted(ps, category) == ReasonsOf(ps[k], category)
  {
    var init := ps[..|ps| - 1];
    if k == |ps| - 1 {
      EmittedEmpty(init, category);
    } else {
      EmittedOnly(init, category, k);
    }
  }

  /** In every category the reasons' points add up to at most the uncapped category sum. */
  lemma ReasonPointsWithinUncapped(a: AssessmentAnswers)
    ensures SumPoints(SensitivityReasons(a)) <= Uncapped(SensitivityPenalties(a))
    ensures SumPoints(ExposureReasons(a)) <= Uncapped(ExposurePenalties(a))
    ensures SumPoints(SecurityReasons(a)) <= Uncapped(SecurityPenalties(a))
    ensures SumPoints(PostureReasons(a)) <= Uncapped(PosturePenalties(a))
    ensures SumPoints(IntegrationReasons(a)) <= Uncapped(IntegrationPenalties(a))
  {
    EmittedWithinTally(SensitivityPenalties(a), SENSITIVITY);
    EmittedWithinTally(ExposurePenalties(a), EXPOSURE);
    EmittedWithinTally(SecurityPenalties(a), SECURITY);
    EmittedWithinTally(PosturePenalties(a), POSTURE);
    EmittedWithinTally(IntegrationPenalties(a), INTEGRATION);
  }

  // ---------------------------------------------------------------------------
  // Sensitivity
  // ---------------------------------------------------------------------------

  /** Unknown data types score exactly 10 with the single reason SENS-UNK, whatever the list holds. */
  lemma UnknownDataTypesOverride(a: AssessmentAnswers)
    requires a.dataTypesUnknown
    ensures SensitivityScore(a) == 10
    ensures SensitivityReasons(a) == [Reason("SENS-UNK", SENSITIVITY, 10)]
  {
    assert [Penalty(10, Some("SENS-UNK"))][..0] == [];
  }

  lemma {:induction false} ListedPointsSnoc(dataTypes: seq<string>, d: string)
    ensures ListedPoints(dataTypes + [d]) == ListedPoints(dataTypes) + PointsFor(d)
  {
    if dataTypes != [] {
      assert (dataTypes + [d])[1..] == dataTypes[1..] + [d];
      ListedPointsSnoc(dataTypes[1..], d);
    }
  }

  /** The weight of two lists one after the other is the sum of their weights. */
  lemma {:induction false} ListedPointsAppend(s: seq<string>, t: seq<string>)
    ensures ListedPoints(s + t) == ListedPoints(s) + ListedPoints(t)
  {
    if s != [] {
      assert (s + t)[1..] == s[1..] + t;
      ListedPointsAppend(s[1..], t);
    } else {
      assert s + t == t;
    }
  }

  /** The uncapped sensitivity sum is the sum of the weights of the list, one term per element. */
  lemma {:induction false} DataTypeTableSum(dataTypes: seq<string>)
    ensures Uncapped(DataTypeTable(dataTypes)) == ListedPoints(dataTypes)
  {
    if dataTypes != [] {
      var n := |dataTypes|;
      var init := dataTypes[..n - 1];
      assert DataTypeTable(dataTypes)[..n - 1] == DataTypeTable(init);
      DataTypeTableSum(init);
      ListedPointsSnoc(init, dataTypes[n - 1]);
      assert init + [dataTypes[n - 1]] == dataTypes;
    }
  }

  /** Known data types score the capped sum of their weights; unlisted keys weigh 0. */
  lemma SensitivityIsCappedSum(a: AssessmentAnswers)
    requires !a.dataTypesUnknown
    ensures SensitivityScore(a) == Min(ListedPoints(a.dataTypes), SENSITIVITY_CAP)
  {
    DataTypeTableSum(a.dataTypes);
  }

  /** A data type carries a reason exactly when it is one of the explained types. */
  lemma ExplainedDataTypes(d: string)
    ensures SensitivityCode(d).Some? <==> d in EXPLAINED_DATA_TYPES
  {
  }

  /** One sensitivity reason per listed element of an explained type, with that element's weight. */
  lemma SensitivityReasonIff(a: AssessmentAnswers, r: ReasonCode)
    requires !a.dataTypesUnknown
    ensures r in SensitivityReasons(a) <==>
            exists i :: 0 <= i < |a.dataTypes| && a.dataTypes[i] in EXPLAINED_DATA_TYPES &&
                        r == Reason(SensitivityCode(a.dataTypes[i]).value, SENSITIVITY, PointsFor(a.dataTypes[i]))
  {
    var ds := a.dataTypes;
    var table := DataTypeTable(ds);
    EmittedMembership(table, SENSITIVITY, r);
    if r in SensitivityReasons(a) {
      var i :| 0 <= i < |table| && table[i].code.Some? && r == Reason(table[i].code.value, SENSITIVITY, table[i].points);
      ExplainedDataTypes(ds[i]);
    } else {
      forall i | 0 <= i < |ds| && ds[i] in EXPLAINED_DATA_TYPES
        ensures r != Reason(SensitivityCode(ds[i]).value, SENSITIVITY, PointsFor(ds[i]))
      {
        ExplainedDataTypes(ds[i]);
        assert table[i] == DataTypePenalty(ds[i]);
      }
    }
  }

  /** Lists made only of unexplained types add points but never a reason. */
  lemma LowSensitivityIsSilent(a: AssessmentAnswers)
    requires !a.dataTypesUnknown
    requires forall d :: d in a.dataTypes ==> d !in EXPLAINED_DATA_TYPES
    ensures SensitivityReasons(a) == []
  {
    var table := DataTypeTable(a.dataTypes);
    forall i | 0 <= i < |table|
      ensures table[i].code.None?
    {
      assert a.dataTypes[i] in a.dataTypes;
    }
    EmittedEmpty(table, SENSITIVITY);
  }

  /** A data type listed twice is weighed twice and explained twice. */
  lemma DuplicateDataTypeCountsTwice(a: AssessmentAnswers, d: string)
    requires !a.dataTypesUnknown && a.dataTypes == [d, d]
    ensures SensitivityScore(a) == Min(2 * PointsFor(d), SENSITIVITY_CAP)
    ensures SensitivityReasons(a) == ReasonsOf(DataTypePenalty(d), SENSITIVITY) + ReasonsOf(DataTypePenalty(d), SENSITIVITY)
  {
    var table := DataTypeTable(a.dataTypes);
    assert table[..0] == [];
    PrefixStep(table, 0, SENSITIVITY);
    PrefixStep(table, 1, SENSITIVITY);
    assert table[..2] == table;
  }

  /** The one reason an explained data type gives: its code, the category and its weight. */
  function DataReason(d: string): (r: ReasonCode)
    requires d in EXPLAINED_DATA_TYPES
    ensures ReasonsOf(DataTypePenalty(d), SENSITIVITY) == [r]
    ensures r.category == SENSITIVITY && r.points == PointsFor(d)
  {
    ExplainedDataTypes(d);
    Reason(SensitivityCode(d).value, SENSITIVITY, PointsFor(d))
  }

  /** No other data type gives the reason of an explained type, not even one sharing its code. */
  lemma DataReasonInjective(x: string, d: string)
    requires d in EXPLAINED_DATA_TYPES
    ensures DataReason(d) in ReasonsOf(DataTypePenalty(x), SENSITIVITY) <==> x == d
  {
  }

  /** In a list of data types, each explained type gives its reason once per occurrence. */
  lemma {:induction false} DataReasonCount(ds: seq<string>, d: string)
    requires d in EXPLAINED_DATA_TYPES
    ensures multiset(Emitted(DataTypeTable(ds), SENSITIVITY))[DataReason(d)] == multiset(ds)[d]
    decreases |ds|
  {
    if ds != [] {
      var init, x := ds[..|ds| - 1], ds[|ds| - 1];
      assert ds == init + [x];
      assert multiset(ds)[d] == multiset(init)[d] + (if x == d then 1 else 0);
      DataReasonCount(init, d);
      assert DataTypeTable(ds)[..|ds| - 1] == DataTypeTable(init);
      DataReasonInjective(x, d);
    }
  }

  /**
   * A repeated data type is explained once per occurrence: the number of times
   * an explained type's reason appears is the number of times the type is listed.
   */
  lemma RepeatedDataTypeReasons(a: AssessmentAnswers, d: string)
    requires !a.dataTypesUnknown && d in EXPLAINED_DATA_TYPES
    ensures multiset(SensitivityReasons(a))[DataReason(d)] == multiset(a.dataTypes)[d]
  {
    DataReasonCount(a.dataTypes, d);
  }

  /** The sensitive set of the stored assessment is exactly the set of types weighted 6 or more. */
  lemma SensitiveTypesAreTheHeaviest(d: string)
    ensures d in AssessmentModel.SENSITIVE_DATA_TYPES <==> PointsFor(d) >= 6
  {
  }

  /** Every type weighted 6 or more comes with a reason. */
  lemma HeavyTypesAreExplained(d: string)
    ensures PointsFor(d) >= 6 ==> d in EXPLAINED_DATA_TYPES
  {
  }

  /** Every catalog entry has a positive weight; "discipline" is weighted but not in the catalog. */
  lemma CatalogIsWeighted()
    ensures forall d :: d in DATA_TYPES ==> PointsFor(d) > 0
    ensures PointsFor("discipline") == 6 && "discipline" !in DATA_TYPES
  {
  }

  /** A listed type weighing 6 or more emits a reason with that weight. */
  lemma HeavyTypeGivesReason(a: AssessmentAnswers, i: nat)
    requires !a.dataTypesUnknown && i < |a.dataTypes| && PointsFor(a.dataTypes[i]) >= 6
    ensures exists r :: r in SensitivityReasons(a) && r.points == PointsFor(a.dataTypes[i])
  {
    var d := a.dataTypes[i];
    HeavyTypesAreExplained(d);
    var r := Reason(SensitivityCode(d).value, SENSITIVITY, PointsFor(d));
    SensitivityReasonIff(a, r);
  }

  /** A sensitivity reason comes from a listed type of the same weight. */
  lemma ReasonHasListedType(a: AssessmentAnswers, r: ReasonCode)
    requires !a.dataTypesUnknown && r in SensitivityReasons(a)
    ensures exists i :: 0 <= i < |a.dataTypes| && PointsFor(a.dataTypes[i]) == r.points
  {
    SensitivityReasonIff(a, r);
    var i :| 0 <= i < |a.dataTypes| && a.dataTypes[i] in EXPLAINED_DATA_TYPES &&
             r == Reason(SensitivityCode(a.dataTypes[i]).value, SENSITIVITY, PointsFor(a.dataTypes[i]));
  }

  /** Known data types emit a reason worth 6 or more exactly when some listed type weighs 6 or more. */
  lemma HeavyReasonIff(a: AssessmentAnswers)
    requires !a.dataTypesUnknown
    ensures (exists r :: r in SensitivityReasons(a) && r.points >= 6) <==>
            (exists i :: 0 <= i < |a.dataTypes| && PointsFor(a.dataTypes[i]) >= 6)
  {
    if i :| 0 <= i < |a.dataTypes| && PointsFor(a.dataTypes[i]) >= 6 {
      HeavyTypeGivesReason(a, i);
    }
    if r :| r in SensitivityReasons(a) && r.points >= 6 {
      ReasonHasListedType(a, r);
    }
  }

  /**
   * For known data types, the stored assessment reports sensitive data exactly
   * when the sensitivity scorer emitted a reason worth 6 points or more.
   */
  lemma SensitiveDataMatchesHeavyReasons(a: AssessmentAnswers)
    requires !a.dataTypesUnknown
    ensures AssessmentModel.HasSensitiveData(ModelDump(a)) <==>
            exists r :: r in SensitivityReasons(a) && r.points >= 6
  {
    var ds := a.dataTypes;
    DataTypesOfStoredAnswers(a);
    HeavyReasonIff(a);
    if d :| d in ds && d in AssessmentModel.SENSITIVE_DATA_TYPES {
      var i :| 0 <= i < |ds| && ds[i] == d;
      SensitiveTypesAreTheHeaviest(d);
    }
    if i :| 0 <= i < |ds| && PointsFor(ds[i]) >= 6 {
      SensitiveTypesAreTheHeaviest(ds[i]);
      assert ds[i] in ds;
    }
  }

  // ---------------------------------------------------------------------------
  // Exposure
  // ---------------------------------------------------------------------------

  /**
   * Each exposure reason appears exactly when its answer triggers it; only the
   * subprocessor question explains its "unknown" answer.
   */
  lemma ExposureReasonsIff(a: AssessmentAnswers)
    ensures "EXPO-SHARE" in CodesOf(ExposureReasons(a)) <==> a.thirdPartySharing == "yes"
    ensures "EXPO-ADS" in CodesOf(ExposureReasons(a)) <==> a.usedForAdvertising == "yes"
    ensures "EXPO-AI" in CodesOf(ExposureReasons(a)) <==> a.usedForAiTraining == "yes"
    ensures "EXPO-SOLD" in CodesOf(ExposureReasons(a)) <==> a.dataSold == "yes"
    ensures "EXPO-SUBP" in CodesOf(ExposureReasons(a)) <==> a.subprocessorsDisclosed in {"no", "unknown"}
    ensures "EXPO-GLOBAL" in CodesOf(ExposureReasons(a)) <==> a.dataRegion == "global"
    ensures "EXPO-BOTH" in CodesOf(ExposureReasons(a)) <==> a.storageLocation == "both"
  {
    ExposureReasonSharing(a);
    ExposureReasonAdvertising(a);
    ExposureReasonAiTraining(a);
    ExposureReasonDataSold(a);
    ExposureReasonSubprocessors(a);
    ExposureReasonRegion(a);
    ExposureReasonStorage(a);
  }

  lemma ExposureReasonSharing(a: AssessmentAnswers)
    ensures "EXPO-SHARE" in CodesOf(ExposureReasons(a)) <==> a.thirdPartySharing == "yes"
  {
    CodeFromOneQuestion(ExposurePenalties(a), EXPOSURE, "EXPO-SHARE", 0);
  }

  lemma ExposureReasonAdvertising(a: AssessmentAnswers)
    ensures "EXPO-ADS" in CodesOf(ExposureReasons(a)) <==> a.usedForAdvertising == "yes"
  {
    CodeFromOneQuestion(ExposurePenalties(a), EXPOSURE, "EXPO-ADS", 1);
  }

  lemma ExposureReasonAiTraining(a: AssessmentAnswers)
    ensures "EXPO-AI" in CodesOf(ExposureReasons(a)) <==> a.usedForAiTraining == "yes"
  {
    CodeFromOneQuestion(ExposurePenalties(a), EXPOSURE, "EXPO-AI", 2);
  }

  lemma ExposureReasonDataSold(a: AssessmentAnswers)
    ensures "EXPO-SOLD" in CodesOf(ExposureReasons(a)) <==> a.dataSold == "yes"
  {
    CodeFromOneQuestion(ExposurePenalties(a), EXPOSURE, "EXPO-SOLD", 3);
  }

  lemma ExposureReasonSubprocessors(a: AssessmentAnswers)
    ensures "EXPO-SUBP" in CodesOf(ExposureReasons(a)) <==> a.subprocessorsDisclosed in {"no", "unknown"}
  {
    CodeFromOneQuestion(ExposurePenalties(a), EXPOSURE, "EXPO-SUBP", 4);
  }

  lemma ExposureReasonRegion(a: AssessmentAnswers)
    ensures "EXPO-GLOBAL" in CodesOf(ExposureReasons(a)) <==> a.dataRegion == "global"
  {
    CodeFromOneQuestion(ExposurePenalties(a), EXPOSURE, "EXPO-GLOBAL", 5);
  }

  lemma ExposureReasonStorage(a: AssessmentAnswers)
    ensures "EXPO-BOTH" in CodesOf(ExposureReasons(a)) <==> a.storageLocation == "both"
  {
    CodeFromOneQuestion(ExposurePenalties(a), EXPOSURE, "EXPO-BOTH", 6);
  }

  /**
   * "unknown" costs points on every exposure question, but only the
   * subprocessor question says so: all-unknown answers score 20 with the one
   * reason EXPO-SUBP worth 3.
   */
  lemma UnknownExposureIsMostlySilent(a: AssessmentAnswers)
    requires a.thirdPartySharing == a.usedForAdvertising == a.usedForAiTraining == a.dataSold == "unknown"
    requires a.subprocessorsDisclosed == a.dataRegion == a.storageLocation == "unknown"
    ensures ExposureScore(a) == 20
    ensures ExposureReasons(a) == [Reason("EXPO-SUBP", EXPOSURE, 3)]
  {
    var table := ExposurePenalties(a);
    UncappedOfSeven(table);
    EmittedOnly(table, EXPOSURE, 4);
  }

  /**
   * The exposure score is the sum of its seven penalties, capped at 25: the
   * worst answers add up to 30, so the cap can bind.
   */
  lemma ExposureScoreIsSum(a: AssessmentAnswers)
    ensures ExposureScore(a) == Min(
              (if a.thirdPartySharing == "yes" then 6 else if a.thirdPartySharing == "unknown" then 4 else 0)
            + (if a.usedForAdvertising == "yes" then 5 else if a.usedForAdvertising == "unknown" then 3 else 0)
            + (if a.usedForAiTraining == "yes" then 4 else if a.usedForAiTraining == "unknown" then 2 else 0)
            + (if a.dataSold == "yes" then 6 else if a.dataSold == "unknown" then 4 else 0)
            + (if a.subprocessorsDisclosed == "no" then 4 else if a.subprocessorsDisclosed == "unknown" then 3 else 0)
            + (if a.dataRegion == "global" then 3 else if a.dataRegion == "unknown" then 2 else 0)
            + (if a.storageLocation == "both" then 2 else if a.storageLocation == "unknown" then 2 else 0),
              EXPOSURE_CAP)
  {
    var table := ExposurePenalties(a);
    UncappedOfSeven(table);
    assert table[0].points == (if a.thirdPartySharing == "yes" then 6 else if a.thirdPartySharing == "unknown" then 4 else 0);
    assert table[1].points == (if a.usedForAdvertising == "yes" then 5 else if a.usedForAdvertising == "unknown" then 3 else 0);
    assert table[2].points == (if a.usedForAiTraining == "yes" then 4 else if a.usedForAiTraining == "unknown" then 2 else 0);
    assert table[3].points == (if a.dataSold == "yes" then 6 else if a.dataSold == "unknown" then 4 else 0);
    assert table[4].points == (if a.subprocessorsDisclosed == "no" then 4 else if a.subprocessorsDisclosed == "unknown" then 3 else 0);
    assert table[5].points == (if a.dataRegion == "global" then 3 else if a.dataRegion == "unknown" then 2 else 0);
    assert table[6].points == (if a.storageLocation == "both" then 2 else if a.storageLocation == "unknown" then 2 else 0);
  }

  // ---------------------------------------------------------------------------
  // Security controls
  // ---------------------------------------------------------------------------

  /** A control is reported missing exactly when its answer is not "yes"; SSO only when "none" or "unknown". */
  lemma SecurityReasonsIff(a: AssessmentAnswers)
    ensures "CTRL-NOSSO" in CodesOf(SecurityReasons(a)) <==> a.ssoSupported in {"none", "unknown"}
    ensures "CTRL-NOMFA" in CodesOf(SecurityReasons(a)) <==> a.mfaAvailable != "yes"
    ensures "CTRL-NORBAC" in CodesOf(SecurityReasons(a)) <==> a.rbacAvailable != "yes"
    ensures "CTRL-NOTRANS" in CodesOf(SecurityReasons(a)) <==> a.encryptionTransit != "yes"
    ensures "CTRL-NOREST" in CodesOf(SecurityReasons(a)) <==> a.encryptionRest != "yes"
    ensures "CTRL-NOAUDIT" in CodesOf(SecurityReasons(a)) <==> a.auditLogsAvailable != "yes"
  {
    SecurityReasonSso(a);
    SecurityReasonMfa(a);
    SecurityReasonRbac(a);
    SecurityReasonTransit(a);
    SecurityReasonRest(a);
    SecurityReasonAudit(a);
  }

  lemma SecurityReasonSso(a: AssessmentAnswers)
    ensures "CTRL-NOSSO" in CodesOf(SecurityReasons(a)) <==> a.ssoSupported in {"none", "unknown"}
  {
    CodeFromOneQuestion(SecurityPenalties(a), SECURITY, "CTRL-NOSSO", 0);
  }

  lemma SecurityReasonMfa(a: AssessmentAnswers)
    ensures "CTRL-NOMFA" in CodesOf(SecurityReasons(a)) <==> a.mfaAvailable != "yes"
  {
    CodeFromOneQuestion(SecurityPenalties(a), SECURITY, "CTRL-NOMFA", 1);
  }

  lemma SecurityReasonRbac(a: AssessmentAnswers)
    ensures "CTRL-NORBAC" in CodesOf(SecurityReasons(a)) <==> a.rbacAvailable != "yes"
  {
    CodeFromOneQuestion(SecurityPenalties(a), SECURITY, "CTRL-NORBAC", 2);
  }

  lemma SecurityReasonTransit(a: AssessmentAnswers)
    ensures "CTRL-NOTRANS" in CodesOf(SecurityReasons(a)) <==> a.encryptionTransit != "yes"
  {
    CodeFromOneQuestion(SecurityPenalties(a), SECURITY, "CTRL-NOTRANS", 3);
  }

  lemma SecurityReasonRest(a: AssessmentAnswers)
    ensures "CTRL-NOREST" in CodesOf(SecurityReasons(a)) <==> a.encryptionRest != "yes"
  {
    CodeFromOneQuestion(SecurityPenalties(a), SECURITY, "CTRL-NOREST", 4);
  }

  lemma SecurityReasonAudit(a: AssessmentAnswers)
    ensures "CTRL-NOAUDIT" in CodesOf(SecurityReasons(a)) <==> a.auditLogsAvailable != "yes"
  {
    CodeFromOneQuestion(SecurityPenalties(a), SECURITY, "CTRL-NOAUDIT", 5);
  }

  /**
   * The security score is the plain sum of its six penalties (at most 20, so
   * the cap never binds).
   */
  lemma SecurityScoreIsSum(a: AssessmentAnswers)
    ensures SecurityScore(a) ==
              (if a.ssoSupported in {"none", "unknown"} then 4 else 0)
            + (if a.mfaAvailable != "yes" then 4 else 0)
            + (if a.rbacAvailable != "yes" then 3 else 0)
            + (if a.encryptionTransit != "yes" then 3 else 0)
            + (if a.encryptionRest != "yes" then 3 else 0)
            + (if a.auditLogsAvailable != "yes" then 3 else 0)
  {
    UncappedOfSix(SecurityPenalties(a));
  }

  /** With every control in place the security score is 0 and no reason is given. */
  lemma AllControlsPresent(a: AssessmentAnswers)
    requires a.ssoSupported !in {"none", "unknown"}
    requires a.mfaAvailable == a.rbacAvailable == a.encryptionTransit == "yes"
    requires a.encryptionRest == a.auditLogsAvailable == "yes"
    ensures SecurityScore(a) == 0
    ensures SecurityReasons(a) == []
  {
    var table := SecurityPenalties(a);
    UncappedZero(table);
    EmittedEmpty(table, SECURITY);
  }

  // ---------------------------------------------------------------------------
  // Vendor posture
  // ---------------------------------------------------------------------------

  /**
   * Posture: a missing retention policy costs 6 (POST-RETUNK); deletion "no"
   * costs 6 (POST-NODEL), "unknown" 5 and "support_ticket" 3 (both
   * POST-DELUNK), anything else nothing. The sum never reaches the cap.
   */
  lemma PostureRules(a: AssessmentAnswers)
    ensures PostureScore(a) ==
              (if a.retentionPolicyStated != "yes" then 6 else 0)
            + (if a.deletionProcess == "no" then 6
               else if a.deletionProcess == "unknown" then 5
               else if a.deletionProcess == "support_ticket" then 3
               else 0)
    ensures "POST-RETUNK" in CodesOf(PostureReasons(a)) <==> a.retentionPolicyStated != "yes"
    ensures "POST-NODEL" in CodesOf(PostureReasons(a)) <==> a.deletionProcess == "no"
    ensures "POST-DELUNK" in CodesOf(PostureReasons(a)) <==> a.deletionProcess in {"unknown", "support_ticket"}
  {
    var table := PosturePenalties(a);
    assert table[..0] == [];
    PrefixStep(table, 0, POSTURE);
    PrefixStep(table, 1, POSTURE);
    assert table[..2] == table;
    CodeEmitted(table, POSTURE, "POST-RETUNK");
    CodeEmitted(table, POSTURE, "POST-NODEL");
    CodeEmitted(table, POSTURE, "POST-DELUNK");
  }

  // ---------------------------------------------------------------------------
  // Integration blast radius
  // ---------------------------------------------------------------------------

  /**
   * The integration score is the sum of its four penalties, capped at 10: an
   * API key, real-time sync, SIS write-back and three or more integrations
   * add up to 11, so the cap can bind.
   */
  lemma IntegrationScoreIsSum(a: AssessmentAnswers)
    ensures IntegrationScore(a) == Min(
              (if a.integrationMethod == "api_key" then 3 else if a.integrationMethod == "unknown" then 2 else 0)
            + (if a.integrationFrequency == "realtime" then 3 else if a.integrationFrequency == "unknown" then 1 else 0)
            + (if a.sisWriteback == "yes" then 3 else if a.sisWriteback == "unknown" then 2 else 0)
            + (if |a.integrationTypes| >= 3 then 2 else 0),
              INTEGRATION_CAP)
  {
    UncappedOfFour(IntegrationPenalties(a));
  }

  /** An API key, real-time sync and SIS write-back are each reported exactly when chosen; "unknown" is silent. */
  lemma IntegrationReasonsIff(a: AssessmentAnswers)
    ensures "INT-APIKEY" in CodesOf(IntegrationReasons(a)) <==> a.integrationMethod == "api_key"
    ensures "INT-REALTIME" in CodesOf(IntegrationReasons(a)) <==> a.integrationFrequency == "realtime"
    ensures "INT-SISWB" in CodesOf(IntegrationReasons(a)) <==> a.sisWriteback == "yes"
  {
    IntegrationReasonApiKey(a);
    IntegrationReasonRealtime(a);
    IntegrationReasonWriteback(a);
  }

  lemma IntegrationReasonApiKey(a: AssessmentAnswers)
    ensures "INT-APIKEY" in CodesOf(IntegrationReasons(a)) <==> a.integrationMethod == "api_key"
  {
    CodeFromOneQuestion(IntegrationPenalties(a), INTEGRATION, "INT-APIKEY", 0);
  }

  lemma IntegrationReasonRealtime(a: AssessmentAnswers)
    ensures "INT-REALTIME" in CodesOf(IntegrationReasons(a)) <==> a.integrationFrequency == "realtime"
  {
    CodeFromOneQuestion(IntegrationPenalties(a), INTEGRATION, "INT-REALTIME", 1);
  }

  lemma IntegrationReasonWriteback(a: AssessmentAnswers)
    ensures "INT-SISWB" in CodesOf(IntegrationReasons(a)) <==> a.sisWriteback == "yes"
  {
    CodeFromOneQuestion(IntegrationPenalties(a), INTEGRATION, "INT-SISWB", 2);
  }

  /** INT-MULTI is given exactly when the list has three or more entries, repeated entries included. */
  lemma MultipleIntegrationsIff(a: AssessmentAnswers)
    ensures "INT-MULTI" in CodesOf(IntegrationReasons(a)) <==> |a.integrationTypes| >= 3
  {
    CodeEmitted(IntegrationPenalties(a), INTEGRATION, "INT-MULTI");
  }

  // ---------------------------------------------------------------------------
  // The combined result
  // ---------------------------------------------------------------------------

  /** The category caps add up to 100, so clamping the total never changes it. */
  lemma TotalClampNeverBinds(a: AssessmentAnswers)
    ensures TotalScore(a) == SensitivityScore(a) + ExposureScore(a) + SecurityScore(a) + PostureScore(a) + IntegrationScore(a)
  {
  }

  /** The five category scores and the total always satisfy the schema's breakdown bounds. */
  lemma BreakdownWithinSchemaBounds(a: AssessmentAnswers)
    ensures ScoreBreakdown(SensitivityScore(a), ExposureScore(a), SecurityScore(a),
                           PostureScore(a), IntegrationScore(a), TotalScore(a)).WithinBounds()
    ensures Breakdown(a).Keys ==
            {"sensitivity", "exposure", "security_controls", "vendor_posture", "integration_blast_radius"}
  {
  }

  /** Every reason of a category has a template code, that code's template and the category's name. */
  predicate Catalogued(reasons: seq<ReasonCode>, category: string)
  {
    forall r :: r in reasons ==> r.code in REASON_TEMPLATES && r.explanation == Template(r.code) && r.category == category
  }

  lemma SensitivityCatalogued(a: AssessmentAnswers)
    ensures Catalogued(SensitivityReasons(a), SENSITIVITY)
  {
    EmittedCodes(SensitivityPenalties(a), SENSITIVITY, REASON_TEMPLATES);
  }

  lemma ExposureCatalogued(a: AssessmentAnswers)
    ensures Catalogued(ExposureReasons(a), EXPOSURE)
  {
    EmittedCodes(ExposurePenalties(a), EXPOSURE, REASON_TEMPLATES);
  }

  lemma SecurityCatalogued(a: AssessmentAnswers)
    ensures Catalogued(SecurityReasons(a), SECURITY)
  {
    EmittedCodes(SecurityPenalties(a), SECURITY, REASON_TEMPLATES);
  }

  lemma PostureCatalogued(a: AssessmentAnswers)
    ensures Catalogued(PostureReasons(a), POSTURE)
  {
    EmittedCodes(PosturePenalties(a), POSTURE, REASON_TEMPLATES);
  }

  lemma IntegrationCatalogued(a: AssessmentAnswers)
    ensures Catalogued(IntegrationReasons(a), INTEGRATION)
  {
    EmittedCodes(IntegrationPenalties(a), INTEGRATION, REASON_TEMPLATES);
  }

  /**
   * Every stored reason has a code with an explanation template, carries that
   * template, and names one of the five categories.
   */
  lemma AllReasonsCatalogued(a: AssessmentAnswers)
    ensures forall r :: r in SortDescending(AllReasons(a), Points) ==>
              r.code in REASON_TEMPLATES && r.explanation == Template(r.code) &&
              r.category in {SENSITIVITY, EXPOSURE, SECURITY, POSTURE, INTEGRATION}
  {
    SensitivityCatalogued(a);
    ExposureCatalogued(a);
    SecurityCatalogued(a);
    PostureCatalogued(a);
    IntegrationCatalogued(a);
    SortDescendingPermutation(AllReasons(a), Points);
    forall r | r in SortDescending(AllReasons(a), Points)
      ensures r.code in REASON_TEMPLATES && r.explanation == Template(r.code) &&
              r.category in {SENSITIVITY, EXPOSURE, SECURITY, POSTURE, INTEGRATION}
    {
      assert r in multiset(SortDescending(AllReasons(a), Points));
      assert r in AllReasons(a);
    }
  }

  /**
   * The tier stored with an assessment is the same whichever mapper computes it,
   * and the scorer's tier string always names a `RiskTier`.
   */
  lemma TierMappersAgree(score: int)
    ensures AssessmentModel.RiskTier.FromScore(score).Value() == DetermineRiskTier(score)
    ensures AssessmentModel.RiskTier.FromValue(DetermineRiskTier(score)) == Some(AssessmentModel.RiskTier.FromScore(score))
  {
    AssessmentModel.ValueRoundTrip(AssessmentModel.RiskTier.FromScore(score));
  }

  /** Serialising reasons keeps their number, order and all four fields. */
  lemma ReasonJsonRoundTrip(reasons: seq<ReasonCode>)
    ensures forall i :: 0 <= i < |reasons| ==> ReasonFromJson(ReasonCodesToJson(reasons)[i]) == Some(reasons[i])
  {
  }

  /**
   * The stored top reasons are the serialised first min(5, n) reasons of the
   * result, and none of the reasons left out outweighs any of them.
   */
  lemma TopReasonsOutweighTheRest(a: AssessmentAnswers)
    ensures var sorted := SortDescending(AllReasons(a), Points);
            var top := AssessmentModel.TopReasonCodes(ReasonCodesToJson(sorted));
            && top == ReasonCodesToJson(sorted[..|top|])
            && forall i, j :: 0 <= i < |top| <= j < |sorted| ==> sorted[i].points >= sorted[j].points
  {
    var sorted := SortDescending(AllReasons(a), Points);
    SortDescendingOrdered(AllReasons(a), Points);
    var top := AssessmentModel.TopReasonCodes(ReasonCodesToJson(sorted));
    assert ReasonCodesToJson(sorted)[..|top|] == ReasonCodesToJson(sorted[..|top|]);
  }
}
