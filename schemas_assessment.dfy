/**
 * The questionnaire's input shape: the answer record with its defaults, the
 * closed vocabulary of each single-valued field, the data-type catalog, the
 * serialised form of the answers, and the bounds of a score breakdown.
 */
module AssessmentSchema {
  import opened AssessmentModel

  /** Keys of the data-type catalog offered to the user (their display texts are not modelled). */
  const DATA_TYPES: set<string> := {
    "directory_info", "contact_info", "attendance_discipline", "academic_records",
    "iep_504", "health", "behavioral_sel", "biometrics", "precise_location",
    "photos_video_audio", "staff_notes", "auth_identifiers", "device_identifiers"
  }

  const STORAGE_LOCATIONS: set<string> := {"vendor_cloud", "district", "both", "unknown"}
  const DATA_REGIONS: set<string> := {"us_only", "eu", "global", "unknown"}
  const YES_NO_UNKNOWN: set<string> := {"yes", "no", "unknown"}
  const SSO_OPTIONS: set<string> := {"entra", "google", "other", "none", "unknown"}
  const DELETION_PROCESSES: set<string> := {"self_serve", "support_ticket", "no", "unknown"}
  const INTEGRATION_METHODS: set<string> := {"oauth", "api_key", "csv_manual", "unknown"}
  const INTEGRATION_FREQUENCIES: set<string> := {"realtime", "nightly", "adhoc", "unknown"}

  /**
   * The questionnaire answers. The two lists are free lists of strings
   * (unvalidated, duplicates allowed); every other field is a string drawn
   * from its vocabulary once validated.
   */
  datatype AssessmentAnswers = AssessmentAnswers(
    dataTypes: seq<string>,
    dataTypesUnknown: bool,
    storageLocation: string,
    dataRegion: string,
    subprocessorsDisclosed: string,
    retentionPolicyStated: string,
    deletionProcess: string,
    ssoSupported: string,
    mfaAvailable: string,
    rbacAvailable: string,
    encryptionTransit: string,
    encryptionRest: string,
    auditLogsAvailable: string,
    thirdPartySharing: string,
    usedForAdvertising: string,
    usedForAiTraining: string,
    dataSold: string,
    // Free strings: the integration-type vocabulary (sis, lms, sso, oneroster,
    // api, csv_upload) is declared but never applied to this list.
    integrationTypes: seq<string>,
    integrationMethod: string,
    integrationFrequency: string,
    sisWriteback: string)
  {
    /** Every single-valued field lies in its declared vocabulary; the lists are unconstrained. */
    predicate Valid()
    {
      && storageLocation in STORAGE_LOCATIONS
      && dataRegion in DATA_REGIONS
      && subprocessorsDisclosed in YES_NO_UNKNOWN
      && retentionPolicyStated in YES_NO_UNKNOWN
      && deletionProcess in DELETION_PROCESSES
      && ssoSupported in SSO_OPTIONS
      && mfaAvailable in YES_NO_UNKNOWN
      && rbacAvailable in YES_NO_UNKNOWN
      && encryptionTransit in YES_NO_UNKNOWN
      && encryptionRest in YES_NO_UNKNOWN
      && auditLogsAvailable in YES_NO_UNKNOWN
      && thirdPartySharing in YES_NO_UNKNOWN
      && usedForAdvertising in YES_NO_UNKNOWN
      && usedForAiTraining in YES_NO_UNKNOWN
      && dataSold in YES_NO_UNKNOWN
      && integrationMethod in INTEGRATION_METHODS
      && integrationFrequency in INTEGRATION_FREQUENCIES
      && sisWriteback in YES_NO_UNKNOWN
    }
  }

  /** The vocabularies constrain the single-valued fields only: any lists may be submitted. */
  lemma ValidIgnoresLists(a: AssessmentAnswers, dataTypes: seq<string>, integrationTypes: seq<string>)
    ensures a.(dataTypes := dataTypes, integrationTypes := integrationTypes).Valid() <==> a.Valid()
  {
  }

  /** `AssessmentAnswers()` with every field at its default. */
  function DefaultAnswers(): (a: AssessmentAnswers)
    ensures a.Valid()
    ensures a.dataTypes == [] && a.integrationTypes == [] && !a.dataTypesUnknown
    ensures a.storageLocation == a.dataRegion == a.subprocessorsDisclosed == "unknown"
    ensures a.retentionPolicyStated == a.deletionProcess == a.ssoSupported == "unknown"
    ensures a.mfaAvailable == a.rbacAvailable == a.encryptionTransit == "unknown"
    ensures a.encryptionRest == a.auditLogsAvailable == a.thirdPartySharing == "unknown"
    ensures a.usedForAdvertising == a.usedForAiTraining == a.dataSold == "unknown"
    ensures a.integrationMethod == a.integrationFrequency == a.sisWriteback == "unknown"
  {
    AssessmentAnswers(
      [], false,
      "unknown", "unknown", "unknown", "unknown", "unknown",
      "unknown", "unknown", "unknown", "unknown", "unknown", "unknown",
      "unknown", "unknown", "unknown", "unknown",
      [], "unknown", "unknown", "unknown")
  }

  /** `model_dump()`: the answers as the JSON document stored in `answers_json`, keyed by field name. */
  function ModelDump(a: AssessmentAnswers): (m: map<string, AnswerJson>)
    ensures "data_types" in m && m["data_types"] == JList(a.dataTypes)
    ensures "data_types_unknown" in m && m["data_types_unknown"] == JFlag(a.dataTypesUnknown)
    ensures "integration_types" in m && m["integration_types"] == JList(a.integrationTypes)
  {
    map[
      "data_types" := JList(a.dataTypes),
      "data_types_unknown" := JFlag(a.dataTypesUnknown),
      "storage_location" := JText(a.storageLocation),
      "data_region" := JText(a.dataRegion),
      "subprocessors_disclosed" := JText(a.subprocessorsDisclosed),
      "retention_policy_stated" := JText(a.retentionPolicyStated),
      "deletion_process" := JText(a.deletionProcess),
      "sso_supported" := JText(a.ssoSupported),
      "mfa_available" := JText(a.mfaAvailable),
      "rbac_available" := JText(a.rbacAvailable),
      "encryption_transit" := JText(a.encryptionTransit),
      "encryption_rest" := JText(a.encryptionRest),
      "audit_logs_available" := JText(a.auditLogsAvailable),
      "third_party_sharing" := JText(a.thirdPartySharing),
      "used_for_advertising" := JText(a.usedForAdvertising),
      "used_for_ai_training" := JText(a.usedForAiTraining),
      "data_sold" := JText(a.dataSold),
      "integration_types" := JList(a.integrationTypes),
      "integration_method" := JText(a.integrationMethod),
      "integration_frequency" := JText(a.integrationFrequency),
      "sis_writeback" := JText(a.sisWriteback)
    ]
  }

  /** Reading `data_types` back from the stored answers gives the submitted list. */
  lemma DataTypesOfStoredAnswers(a: AssessmentAnswers)
    ensures DataTypes(ModelDump(a)) == JList(a.dataTypes)
    ensures HasSensitiveData(ModelDump(a)) <==> exists d :: d in a.dataTypes && d in SENSITIVE_DATA_TYPES
  {
  }

  /** The per-category score breakdown. */
  datatype ScoreBreakdown = ScoreBreakdown(
    sensitivity: int,
    exposure: int,
    securityControls: int,
    vendorPosture: int,
    integrationBlastRadius: int,
    total: int)
  {
    /** The field bounds the schema enforces. */
    predicate WithinBounds()
    {
      && 0 <= sensitivity <= 30
      && 0 <= exposure <= 25
      && 0 <= securityControls <= 20
      && 0 <= vendorPosture <= 15
      && 0 <= integrationBlastRadius <= 10
      && 0 <= total <= 100
    }
  }
}
