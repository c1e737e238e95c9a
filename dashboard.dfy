/**
 * The scored records of the dashboard: compliance reports, per-asset
 * criticality and per-vulnerability risk prioritization, with the
 * five-tier classifications they derive.
 */
module Dashboard {
  import opened Wrappers
  import opened Inventory
  import opened ComplianceFindings

  // ---------------------------------------------------------------- reports

  type ReportId = nat

  datatype ReportStatus = Draft | Approved | Expired

  /**
   * A compliance report row.  `findings` is a JSON column whose default is the
   * empty object, written `None` here; `created_by` and the timestamps are not modelled.
   */
  datatype ComplianceReport = ComplianceReport(
    organization: string,
    reportType: string,
    validUntil: Instant,
    status: ReportStatus,
    findings: Option<Findings>,
    remediationPlan: string)

  /** A freshly created report: a draft with no findings and an empty remediation plan. */
  function NewComplianceReport(organization: string, reportType: string, validUntil: Instant): (r: ComplianceReport)
    ensures r.status == Draft && r.findings == None && r.remediationPlan == ""
    ensures r.organization == organization && r.reportType == reportType && r.validUntil == validUntil
  {
    ComplianceReport(organization, reportType, validUntil, Draft, None, "")
  }

  /** The report is the open draft for this organisation and framework. */
  predicate IsDraftFor(r: ComplianceReport, organization: string, reportType: string)
  {
    r.status == Draft && r.organization == organization && r.reportType == reportType
  }

  // ------------------------------------------------------- asset criticality

  datatype CriticalityLevel = VeryLow | Low | Medium | High | VeryHigh
  {
    /** Position of the level, from 0 (very_low) to 4 (very_high). */
    function Rank(): nat
    {
      match this
      case VeryLow => 0
      case Low => 1
      case Medium => 2
      case High => 3
      case VeryHigh => 4
    }
  }

  /** The criticality tier of a score; every lower bound is inclusive. */
  function CriticalityLevelOf(score: real): (l: CriticalityLevel)
    ensures l == CriticalityLevel.VeryHigh <==> 8.0 <= score
    ensures l == CriticalityLevel.High <==> 6.0 <= score < 8.0
    ensures l == CriticalityLevel.Medium <==> 4.0 <= score < 6.0
    ensures l == CriticalityLevel.Low <==> 2.0 <= score < 4.0
    ensures l == CriticalityLevel.VeryLow <==> score < 2.0
  {
    if score >= 8.0 then CriticalityLevel.VeryHigh
    else if score >= 6.0 then CriticalityLevel.High
    else if score >= 4.0 then CriticalityLevel.Medium
    else if score >= 2.0 then CriticalityLevel.Low
    else CriticalityLevel.VeryLow
  }

  /** A higher score never gets a lower tier. */
  lemma CriticalityLevelMonotonic(a: real, b: real)
    requires a <= b
    ensures CriticalityLevelOf(a).Rank() <= CriticalityLevelOf(b).Rank()
  {
  }

  /** The business-value/data-sensitivity blend; the weights sum to one. */
  function WeightedCriticality(businessValue: real, dataSensitivity: real): (score: real)
    ensures businessValue <= dataSensitivity ==> businessValue <= score <= dataSensitivity
    ensures dataSensitivity <= businessValue ==> dataSensitivity <= score <= businessValue
  {
    businessValue * 0.6 + dataSensitivity * 0.4
  }

  /** The observable fields of an asset criticality record. */
  datatype CriticalityState = CriticalityState(
    businessValue: real,
    dataSensitivity: real,
    criticalityScore: real,
    criticalityLevel: CriticalityLevel)

  /** A new record: business value 5, data sensitivity 5, score 0, level medium. */
  const DefaultCriticality := CriticalityState(5.0, 5.0, 0.0, CriticalityLevel.Medium)

  /** The record after `calculate_criticality`: only score and level change. */
  function Calculated(s: CriticalityState): (r: CriticalityState)
    ensures r.businessValue == s.businessValue && r.dataSensitivity == s.dataSensitivity
    ensures r.criticalityLevel == CriticalityLevelOf(r.criticalityScore)
    ensures 0.0 <= s.businessValue <= 10.0 && 0.0 <= s.dataSensitivity <= 10.0 ==>
              0.0 <= r.criticalityScore <= 10.0
  {
    var score := WeightedCriticality(s.businessValue, s.dataSensitivity);
    s.(criticalityScore := score, criticalityLevel := CriticalityLevelOf(score))
  }

  /** Recalculating is idempotent, and the result does not depend on the previous score or level. */
  lemma CalculatedIdempotent(s: CriticalityState, t: CriticalityState)
    requires s.businessValue == t.businessValue && s.dataSensitivity == t.dataSensitivity
    ensures Calculated(Calculated(s)) == Calculated(s)
    ensures Calculated(s) == Calculated(t)
  {
  }

  class AssetCriticality {
    const subdomain: SubdomainId
    var businessValue: real
    var dataSensitivity: real
    var criticalityScore: real
    var criticalityLevel: CriticalityLevel

    function State(): CriticalityState
      reads this
    {
      CriticalityState(businessValue, dataSensitivity, criticalityScore, criticalityLevel)
    }

    /** A new record for a subdomain, with the column defaults. */
    constructor (subdomain: SubdomainId)
      ensures this.subdomain == subdomain
      ensures State() == DefaultCriticality
    {
      this.subdomain := subdomain;
      businessValue := 5.0;
      dataSensitivity := 5.0;
      criticalityScore := 0.0;
      criticalityLevel := CriticalityLevel.Medium;
    }

    /** The record as loaded from a stored row. */
    constructor Load(subdomain: SubdomainId, row: CriticalityState)
      ensures this.subdomain == subdomain
      ensures State() == row
    {
      this.subdomain := subdomain;
      businessValue := row.businessValue;
      dataSensitivity := row.dataSensitivity;
      criticalityScore := row.criticalityScore;
      criticalityLevel := row.criticalityLevel;
    }

    /** Recomputes the score and its tier from business value and data sensitivity. */
    method CalculateCriticality()
      modifies `criticalityScore, `criticalityLevel
      ensures State() == Calculated(old(State()))
    {
      var score := businessValue * 0.6 + dataSensitivity * 0.4;
      criticalityScore := score;
      if score >= 8.0 {
        criticalityLevel := CriticalityLevel.VeryHigh;
      } else if score >= 6.0 {
        criticalityLevel := CriticalityLevel.High;
      } else if score >= 4.0 {
        criticalityLevel := CriticalityLevel.Medium;
      } else if score >= 2.0 {
        criticalityLevel := CriticalityLevel.Low;
      } else {
        criticalityLevel := CriticalityLevel.VeryLow;
      }
    }
  }

  // ------------------------------------------------------ risk prioritization

  datatype PriorityLevel = Info | Low | Medium | High | Critical
  {
    /** Position of the level, from 0 (info) to 4 (critical). */
    function Rank(): nat
    {
      match this
      case Info => 0
      case Low => 1
      case Medium => 2
      case High => 3
      case Critical => 4
    }
  }

  /** The priority tier of a risk score; every lower bound is inclusive. */
  function PriorityLevelOf(score: real): (l: PriorityLevel)
    ensures l == PriorityLevel.Critical <==> 8.0 <= score
    ensures l == PriorityLevel.High <==> 6.0 <= score < 8.0
    ensures l == PriorityLevel.Medium <==> 4.0 <= score < 6.0
    ensures l == PriorityLevel.Low <==> 2.0 <= score < 4.0
    ensures l == PriorityLevel.Info <==> score < 2.0
  {
    if score >= 8.0 then PriorityLevel.Critical
    else if score >= 6.0 then PriorityLevel.High
    else if score >= 4.0 then PriorityLevel.Medium
    else if score >= 2.0 then PriorityLevel.Low
    else PriorityLevel.Info
  }

  /** A higher risk score never gets a lower priority. */
  lemma PriorityLevelMonotonic(a: real, b: real)
    requires a <= b
    ensures PriorityLevelOf(a).Rank() <= PriorityLevelOf(b).Rank()
  {
  }

  datatype RemediationEffort = Low | Medium | High

  /** The overall risk: the mean of asset criticality, exploitability and business impact. */
  function RiskScore(criticality: real, exploitability: real, impact: real): (r: real)
    ensures 3.0 * r == criticality + exploitability + impact
    ensures criticality <= exploitability && impact <= exploitability ==> r <= exploitability
    ensures exploitability <= criticality && impact <= criticality ==> r <= criticality
    ensures criticality <= impact && exploitability <= impact ==> r <= impact
  {
    (criticality + exploitability + impact) / 3.0
  }

  /** The observable fields of a risk prioritization record. */
  datatype RiskState = RiskState(
    exploitabilityScore: real,
    businessImpact: real,
    overallRiskScore: real,
    priorityLevel: PriorityLevel,
    remediationEffort: RemediationEffort,
    slaDays: int)

  /** A new record: scores 0, priority medium, effort medium, 30 days to remediate. */
  const DefaultRisk := RiskState(0.0, 0.0, 0.0, PriorityLevel.Medium, RemediationEffort.Medium, 30)

  /** The record after `calculate_risk`: only the overall score and its tier change. */
  function Assessed(s: RiskState, criticalityScore: real): (r: RiskState)
    ensures r.(overallRiskScore := s.overallRiskScore, priorityLevel := s.priorityLevel) == s
    ensures r.priorityLevel == PriorityLevelOf(r.overallRiskScore)
  {
    var score := RiskScore(criticalityScore, s.exploitabilityScore, s.businessImpact);
    s.(overallRiskScore := score, priorityLevel := PriorityLevelOf(score))
  }

  /** Reassessing against the same asset criticality gives the same record. */
  lemma AssessedIdempotent(s: RiskState, criticalityScore: real)
    ensures Assessed(Assessed(s, criticalityScore), criticalityScore) == Assessed(s, criticalityScore)
  {
  }

  class RiskPrioritization {
    const vulnerability: VulnerabilityId
    const assetCriticality: AssetCriticality
    var exploitabilityScore: real
    var businessImpact: real
    var overallRiskScore: real
    var priorityLevel: PriorityLevel
    var remediationEffort: RemediationEffort
    var slaDays: int

    function State(): RiskState
      reads this
    {
      RiskState(exploitabilityScore, businessImpact, overallRiskScore, priorityLevel, remediationEffort, slaDays)
    }

    /** A new record for a vulnerability on the given asset, with the column defaults. */
    constructor (vulnerability: VulnerabilityId, assetCriticality: AssetCriticality)
      ensures this.vulnerability == vulnerability && this.assetCriticality == assetCriticality
      ensures State() == DefaultRisk
    {
      this.vulnerability := vulnerability;
      this.assetCriticality := assetCriticality;
      exploitabilityScore := 0.0;
      businessImpact := 0.0;
      overallRiskScore := 0.0;
      priorityLevel := PriorityLevel.Medium;
      remediationEffort := RemediationEffort.Medium;
      slaDays := 30;
    }

    /** The record as loaded from a stored row. */
    constructor Load(vulnerability: VulnerabilityId, assetCriticality: AssetCriticality, row: RiskState)
      ensures this.vulnerability == vulnerability && this.assetCriticality == assetCriticality
      ensures State() == row
    {
      this.vulnerability := vulnerability;
      this.assetCriticality := assetCriticality;
      exploitabilityScore := row.exploitabilityScore;
      businessImpact := row.businessImpact;
      overallRiskScore := row.overallRiskScore;
      priorityLevel := row.priorityLevel;
      remediationEffort := row.remediationEffort;
      slaDays := row.slaDays;
    }

    /** Recomputes the overall risk score and its priority tier. */
    method CalculateRisk()
      modifies `overallRiskScore, `priorityLevel
      ensures State() == Assessed(old(State()), assetCriticality.criticalityScore)
    {
      overallRiskScore := (assetCriticality.criticalityScore + exploitabilityScore + businessImpact) / 3.0;
      if overallRiskScore >= 8.0 {
        priorityLevel := PriorityLevel.Critical;
      } else if overallRiskScore >= 6.0 {
        priorityLevel := PriorityLevel.High;
      } else if overallRiskScore >= 4.0 {
        priorityLevel := PriorityLevel.Medium;
      } else if overallRiskScore >= 2.0 {
        priorityLevel := PriorityLevel.Low;
      } else {
        priorityLevel := PriorityLevel.Info;
      }
    }
  }
}
