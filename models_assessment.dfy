/**
 * The parts of the stored risk assessment that carry behaviour:
 * the `RiskTier` enumeration and its score bands, and three read-only views
 * over a stored assessment (`data_types`, `has_sensitive_data`, `top_reason_codes`).
 * The ORM columns and relationships themselves are plain storage.
 */
module AssessmentModel {
  import opened Wrappers

  /** The four tiers; `Value()` is the enum's string value. */
  datatype RiskTier = Low | Moderate | High | Critical
  {
    function Value(): string
    {
      match this
      case Low => "Low"
      case Moderate => "Moderate"
      case High => "High"
      case Critical => "Critical"
    }

    /** Position in the order Low < Moderate < High < Critical. */
    function Rank(): nat
    {
      match this
      case Low => 0
      case Moderate => 1
      case High => 2
      case Critical => 3
    }

    /** `RiskTier.from_score`: the score bands 0-25, 26-50, 51-75, 76 and above. */
    static function FromScore(score: int): (t: RiskTier)
      ensures t == Low <==> score <= 25
      ensures t == Moderate <==> 25 < score <= 50
      ensures t == High <==> 50 < score <= 75
      ensures t == Critical <==> 75 < score
    {
      if score <= 25 then Low
      else if score <= 50 then Moderate
      else if score <= 75 then High
      else Critical
    }

    /** `RiskTier(value)`: look a tier up by its string value; anything else is a ValueError. */
    static function FromValue(value: string): (r: Option<RiskTier>)
      ensures r.Some? <==> value in {"Low", "Moderate", "High", "Critical"}
      ensures r.Some? ==> r.value.Value() == value
    {
      if value == "Low" then Some(Low)
      else if value == "Moderate" then Some(Moderate)
      else if value == "High" then Some(High)
      else if value == "Critical" then Some(Critical)
      else None
    }
  }

  /** Looking a tier up by its own value gives the tier back. */
  lemma ValueRoundTrip(t: RiskTier)
    ensures RiskTier.FromValue(t.Value()) == Some(t)
  {
  }

  /** A larger score never yields a lower tier. */
  lemma FromScoreMonotone(s1: int, s2: int)
    requires s1 <= s2
    ensures RiskTier.FromScore(s1).Rank() <= RiskTier.FromScore(s2).Rank()
  {
  }

  /** A value of the stored `answers_json` document. */
  datatype AnswerJson = JText(text: string) | JFlag(flag: bool) | JList(items: seq<string>)

  /** The `data_types` property: the stored list, or an empty list when the key is absent. */
  function DataTypes(answersJson: map<string, AnswerJson>): (r: AnswerJson)
    ensures "data_types" in answersJson ==> r == answersJson["data_types"]
    ensures "data_types" !in answersJson ==> r == JList([])
  {
    if "data_types" in answersJson then answersJson["data_types"] else JList([])
  }

  /** The data types whose presence marks a system as handling sensitive data. */
  const SENSITIVE_DATA_TYPES: set<string> :=
    {"iep_504", "health", "behavioral_sel", "biometrics", "precise_location", "discipline"}

  /**
   * `set(data_types)` as Python computes it: the elements of a list, or the
   * one-character strings of a text. Python cannot make a set of a boolean.
   */
  function ElementSet(v: AnswerJson): (r: set<string>)
    requires !v.JFlag?
    ensures v.JList? ==> forall x :: x in r <==> x in v.items
    ensures v.JText? ==> forall x :: x in r <==> exists i :: 0 <= i < |v.text| && x == [v.text[i]]
  {
    match v
    case JList(items) => set x | x in items
    case JText(text) => set i | 0 <= i < |text| :: [text[i]]
  }

  /**
   * The `has_sensitive_data` property: the stored data types meet the sensitive set.
   * A stored boolean would make Python raise, so it is excluded.
   */
  function HasSensitiveData(answersJson: map<string, AnswerJson>): (r: bool)
    requires !DataTypes(answersJson).JFlag?
    ensures r <==> DataTypes(answersJson).JList? &&
                   exists d :: d in DataTypes(answersJson).items && d in SENSITIVE_DATA_TYPES
  {
    MeetsSensitive(DataTypes(answersJson));
    ElementSet(DataTypes(answersJson)) * SENSITIVE_DATA_TYPES != {}
  }

  /** A list meets the sensitive set through its elements; a text never does, its characters being too short. */
  lemma MeetsSensitive(v: AnswerJson)
    requires !v.JFlag?
    ensures ElementSet(v) * SENSITIVE_DATA_TYPES != {} <==>
            v.JList? && exists d :: d in v.items && d in SENSITIVE_DATA_TYPES
  {
    if v.JList? {
      if d :| d in v.items && d in SENSITIVE_DATA_TYPES {
        assert d in ElementSet(v) * SENSITIVE_DATA_TYPES;
      }
    } else {
      forall x | x in ElementSet(v)
        ensures x !in SENSITIVE_DATA_TYPES
      {
        assert |x| == 1;
      }
      assert ElementSet(v) * SENSITIVE_DATA_TYPES == {};
    }
  }

  /** The `top_reason_codes` property: the first five stored reasons, in stored order. */
  function TopReasonCodes<T>(stored: seq<T>): (r: seq<T>)
    ensures |r| == if |stored| < 5 then |stored| else 5
    ensures r == stored[..|r|]
  {
    if stored != [] then (if |stored| <= 5 then stored else stored[..5]) else []
  }
}
