/** The risk classifier: a total threshold function from a score to one of
    three ordinal tiers. */
module Risk {
  datatype RiskLevel = HighRisk | ModerateRisk | LowRisk {
    /** The label the pipeline writes into the Risk_Level column. */
    function Label(): string {
      match this
      case HighRisk => "High Risk"
      case ModerateRisk => "Moderate Risk"
      case LowRisk => "Low Risk"
    }

    /** Ordinal severity: 2 for High, 1 for Moderate, 0 for Low. */
    function Severity(): nat {
      match this
      case HighRisk => 2
      case ModerateRisk => 1
      case LowRisk => 0
    }
  }

  /** Below 50 is High, from 50 up to (not including) 75 is Moderate,
      75 and above is Low; every real score is accepted, with no clamping. */
  function CalculateRisk(score: real): (r: RiskLevel)
    ensures r == HighRisk <==> score < 50.0
    ensures r == ModerateRisk <==> 50.0 <= score < 75.0
    ensures r == LowRisk <==> 75.0 <= score
  {
    if score < 50.0 then HighRisk
    else if score < 75.0 then ModerateRisk
    else LowRisk
  }

  /** A higher score never gives a more severe tier. */
  lemma RiskMonotone(a: real, b: real)
    requires a <= b
    ensures CalculateRisk(b).Severity() <= CalculateRisk(a).Severity()
  {
  }

  /** The two boundaries belong to the better tier. */
  lemma RiskBoundaries()
    ensures CalculateRisk(50.0) == ModerateRisk
    ensures CalculateRisk(75.0) == LowRisk
    ensures CalculateRisk(49.999) == HighRisk
    ensures CalculateRisk(74.999) == ModerateRisk
  {
  }

  /** Distinct tiers carry distinct labels, so the label determines the tier. */
  lemma LabelInjective(a: RiskLevel, b: RiskLevel)
    requires a.Label() == b.Label()
    ensures a == b
  {
  }
}
