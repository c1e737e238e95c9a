/**
 * The risk engine: per-asset criticality from vulnerability exposure, endpoint
 * count and technology stack, and the criticality-weighted ranking of an
 * organisation's vulnerabilities.  The two record tables are keyed maps of
 * objects owned by the engine.
 */
module Risk {
  import opened Text
  import opened Inventory
  import opened Dashboard

  // ------------------------------------------------------- criticality inputs

  /** Technologies that raise an asset's technology score (compared after lower-casing). */
  const SensitiveTechnologies: seq<string> := ["wordpress", "joomla", "drupal", "php", "mysql"]

  function Sum(xs: seq<int>): int
  {
    if xs == [] then 0 else xs[0] + Sum(xs[1..])
  }

  lemma {:induction false} SumBounds(xs: seq<int>, lo: int, hi: int)
    requires forall x :: x in xs ==> lo <= x <= hi
    ensures |xs| * lo <= Sum(xs) <= |xs| * hi
  {
    if xs != [] {
      assert forall x :: x in xs[1..] ==> x in xs;
      assert xs[0] in xs;
      SumBounds(xs[1..], lo, hi);
      assert |xs| * lo == (|xs| - 1) * lo + lo;
      assert |xs| * hi == (|xs| - 1) * hi + hi;
    }
  }

  function Largest(xs: seq<int>): (m: int)
    requires xs != []
    ensures forall x :: x in xs ==> x <= m
  {
    if |xs| == 1 then xs[0]
    else
      var m := Largest(xs[1..]);
      assert forall x :: x in xs ==> x == xs[0] || x in xs[1..];
      if xs[0] < m then m else xs[0]
  }

  /** The mean severity of an asset's vulnerabilities; the divisor is at least 1. */
  function VulnScore(severities: seq<int>): (r: real)
    ensures severities == [] ==> r == 0.0
  {
    (Sum(severities) as real) / ((if |severities| > 1 then |severities| else 1) as real)
  }

  /** Converting a product of integers to a real multiplies the converted factors. */
  lemma {:induction false} RealOfProduct(a: nat, b: int)
    ensures (a * b) as real == (a as real) * (b as real)
  {
    if a > 0 {
      RealOfProduct(a - 1, b);
      assert a * b == (a - 1) * b + b;
    }
  }

  /** Dividing by a positive count: `n * lo <= total <= n * hi` puts the quotient between `lo` and `hi`. */
  lemma QuotientBounds(total: real, n: real, lo: real, hi: real)
    requires n > 0.0 && n * lo <= total <= n * hi
    ensures lo <= total / n <= hi
  {
    var q := total / n;
    assert q * n == total;
    assert (q - lo) * n == total - n * lo;
    assert (hi - q) * n == n * hi - total;
  }

  /** The mean lies within the range of the severities it averages. */
  lemma VulnScoreBounds(severities: seq<int>, lo: int, hi: int)
    requires severities != []
    requires forall x :: x in severities ==> lo <= x <= hi
    ensures lo as real <= VulnScore(severities) <= hi as real
  {
    SumBounds(severities, lo, hi);
    RealOfProduct(|severities|, lo);
    RealOfProduct(|severities|, hi);
    QuotientBounds(Sum(severities) as real, |severities| as real, lo as real, hi as real);
  }

  /** Some technology, lower-cased, is exactly one of the sensitive names. */
  function AnySensitive(technologies: seq<string>): (b: bool)
    ensures b <==> exists t :: t in technologies && LowerString(t) in SensitiveTechnologies
  {
    if technologies == [] then false
    else
      assert forall t :: t in technologies[1..] ==> t in technologies;
      assert technologies == [technologies[0]] + technologies[1..];
      LowerString(technologies[0]) in SensitiveTechnologies || AnySensitive(technologies[1..])
  }

  /** 3 for an asset running a sensitive technology, 1 otherwise. */
  function TechScore(technologies: seq<string>): (r: int)
    ensures r == if exists t :: t in technologies && LowerString(t) in SensitiveTechnologies then 3 else 1
  {
    if AnySensitive(technologies) then 3 else 1
  }

  /** `min(10, x)`: only an upper cap, no lower clamp. */
  function AtMostTen(x: real): (r: real)
    ensures r <= 10.0 && r <= x
    ensures r == x || r == 10.0
  {
    if x < 10.0 then x else 10.0
  }

  /**
   * The criticality record of an asset after `calculate_asset_criticality`:
   * business value and data sensitivity are overwritten from the inputs, then
   * score and level recalculated.  The defaults of a new record never show.
   */
  function AssetCriticalityOf(severities: seq<int>, endpointCount: nat, technologies: seq<string>): (r: CriticalityState)
    ensures r.businessValue <= 10.0 && r.dataSensitivity <= 10.0
    ensures r.criticalityLevel == CriticalityLevelOf(r.criticalityScore)
    ensures severities == [] ==>
              r.dataSensitivity == TechScore(technologies) as real &&
              r.businessValue == AtMostTen(endpointCount as real / 10.0 + TechScore(technologies) as real)
  {
    var vulnScore := VulnScore(severities);
    var techScore := TechScore(technologies) as real;
    Calculated(DefaultCriticality.(
      businessValue := AtMostTen(vulnScore + endpointCount as real / 10.0 + techScore),
      dataSensitivity := AtMostTen(vulnScore + techScore)))
  }

  /**
   * Scores stay on the 0..10 scale: the cap gives the upper bound, and with
   * severities of at least -1 the technology score (at least 1) keeps both
   * inputs, and so the weighted score, non-negative.
   */
  lemma AssetCriticalityBounds(severities: seq<int>, endpointCount: nat, technologies: seq<string>)
    requires forall x :: x in severities ==> -1 <= x
    ensures var r := AssetCriticalityOf(severities, endpointCount, technologies);
            && 0.0 <= r.businessValue <= 10.0
            && 0.0 <= r.dataSensitivity <= 10.0
            && 0.0 <= r.criticalityScore <= 10.0
  {
    if severities != [] {
      VulnScoreBounds(severities, -1, Largest(severities));
    }
  }

  /** The asset with technologies {WordPress}, no vulnerabilities and 20 endpoints. */
  lemma WordPressAssetExample()
    ensures AssetCriticalityOf([], 20, ["WordPress"]) == CriticalityState(5.0, 3.0, 4.2, CriticalityLevel.Medium)
  {
    assert LowerString("WordPress") == "wordpress";
    assert TechScore(["WordPress"]) == 3;
  }

  /**
   * The criticality an asset gets from the current inventory: the formula
   * applied to the severities of the vulnerabilities found on it.
   */
  function AssessAsset(inv: Inventory, s: Subdomain): (c: CriticalityState)
  {
    AssetCriticalityOf(SeveritiesOf(inv, s.id), s.endpointCount, s.technologies)
  }

  /** With every severity on the subdomain at least -1, the asset's scores stay on the 0..10 scale. */
  lemma AssessAssetBounds(inv: Inventory, s: Subdomain)
    requires forall v :: v in inv.vulnerabilities && v.subdomain == s.id ==> -1 <= v.severity
    ensures 0.0 <= AssessAsset(inv, s).businessValue <= 10.0
    ensures 0.0 <= AssessAsset(inv, s).dataSensitivity <= 10.0
    ensures 0.0 <= AssessAsset(inv, s).criticalityScore <= 10.0
  {
    SeveritiesMembers(inv.vulnerabilities, s.id);
    AssetCriticalityBounds(SeveritiesOf(inv, s.id), s.endpointCount, s.technologies);
  }

  // ---------------------------------------------------------- risk inputs

  /**
   * The prioritization record after one pass of the loop: exploitability is
   * twice the severity, business impact the asset's criticality score, then
   * the risk is reassessed.  Remediation effort and SLA are left alone.
   */
  function Prioritized(s: RiskState, severity: int, criticalityScore: real): (r: RiskState)
    ensures r.exploitabilityScore == (2 * severity) as real && r.businessImpact == criticalityScore
    ensures r.remediationEffort == s.remediationEffort && r.slaDays == s.slaDays
    ensures r.priorityLevel == PriorityLevelOf(r.overallRiskScore)
  {
    Assessed(s.(exploitabilityScore := (2 * severity) as real, businessImpact := criticalityScore), criticalityScore)
  }

  /** Running the pass again changes nothing. */
  lemma PrioritizedIdempotent(s: RiskState, severity: int, criticalityScore: real)
    ensures Prioritized(Prioritized(s, severity, criticalityScore), severity, criticalityScore)
            == Prioritized(s, severity, criticalityScore)
  {
  }

  /** With severity in 0..5 and criticality in 0..10 the overall risk is in 0..10. */
  lemma RiskScoreBounds(s: RiskState, severity: int, criticalityScore: real)
    requires 0 <= severity <= 5 && 0.0 <= criticalityScore <= 10.0
    ensures 0.0 <= Prioritized(s, severity, criticalityScore).overallRiskScore <= 10.0
  {
  }

  /** A more severe vulnerability on a more critical asset never ranks lower. */
  lemma RiskScoreMonotonic(s: RiskState, t: RiskState, sev1: int, sev2: int, crit1: real, crit2: real)
    requires sev1 <= sev2 && crit1 <= crit2
    ensures Prioritized(s, sev1, crit1).overallRiskScore <= Prioritized(t, sev2, crit2).overallRiskScore
    ensures Prioritized(s, sev1, crit1).priorityLevel.Rank() <= Prioritized(t, sev2, crit2).priorityLevel.Rank()
  {
    PriorityLevelMonotonic(Prioritized(s, sev1, crit1).overallRiskScore, Prioritized(t, sev2, crit2).overallRiskScore);
  }

  /** Severity 4 on an asset of criticality 6.0: exploitability 8, overall 20/3, priority high. */
  lemma SeverityFourExample()
    ensures var r := Prioritized(DefaultRisk, 4, 6.0);
            r.exploitabilityScore == 8.0 && r.overallRiskScore == 20.0 / 3.0 && r.priorityLevel == PriorityLevel.High
  {
  }

  // ------------------------------------------------------------------ ranking

  /** A stored prioritization row: the vulnerability, the asset it is weighed against, and its fields. */
  datatype PrioritizationRow = PrioritizationRow(vulnerability: VulnerabilityId, asset: SubdomainId, state: RiskState)

  ghost predicate SortedByRisk(r: seq<PrioritizationRow>)
  {
    forall i, j :: 0 <= i < j < |r| ==> r[i].state.overallRiskScore >= r[j].state.overallRiskScore
  }

  /** Putting `p` after everything at least as risky and before the rest keeps the order. */
  lemma InsertKeepsSorted(r: seq<PrioritizationRow>, k: nat, p: PrioritizationRow)
    requires SortedByRisk(r) && k <= |r|
    requires forall m :: 0 <= m < k ==> r[m].state.overallRiskScore >= p.state.overallRiskScore
    requires k < |r| ==> r[k].state.overallRiskScore < p.state.overallRiskScore
    ensures SortedByRisk(r[..k] + [p] + r[k..])
  {
    var t := r[..k] + [p] + r[k..];
    forall i, j | 0 <= i < j < |t|
      ensures t[i].state.overallRiskScore >= t[j].state.overallRiskScore
    {
      if j < k {
        assert t[i] == r[i] && t[j] == r[j];
      } else if j == k {
        assert t[i] == r[i] && t[j] == p;
      } else if i < k {
        assert t[i] == r[i] && t[j] == r[j - 1];
      } else if i == k {
        assert t[i] == p && t[j] == r[j - 1];
        assert r[k].state.overallRiskScore >= r[j - 1].state.overallRiskScore || k == j - 1;
      } else {
        assert t[i] == r[i - 1] && t[j] == r[j - 1];
      }
    }
  }

  /** The first position whose score is below `p`'s: everything before it is at least as risky. */
  method InsertionPoint(r: seq<PrioritizationRow>, p: PrioritizationRow) returns (k: nat)
    ensures k <= |r|
    ensures forall m :: 0 <= m < k ==> r[m].state.overallRiskScore >= p.state.overallRiskScore
    ensures k < |r| ==> r[k].state.overallRiskScore < p.state.overallRiskScore
  {
    k := 0;
    while k < |r| && r[k].state.overallRiskScore >= p.state.overallRiskScore
      invariant k <= |r|
      invariant forall m :: 0 <= m < k ==> r[m].state.overallRiskScore >= p.state.overallRiskScore
    {
      k := k + 1;
    }
  }

  /** Orders rows by overall risk score, highest first. */
  method SortByRiskDescending(ps: seq<PrioritizationRow>) returns (r: seq<PrioritizationRow>)
    ensures multiset(r) == multiset(ps)
    ensures SortedByRisk(r)
  {
    r := [];
    for n := 0 to |ps|
      invariant multiset(r) == multiset(ps[..n])
      invariant SortedByRisk(r)
    {
      var p := ps[n];
      var k := InsertionPoint(r, p);
      InsertKeepsSorted(r, k, p);
      assert r == r[..k] + r[k..];
      assert ps[..n + 1] == ps[..n] + [p];
      r := r[..k] + [p] + r[k..];
    }
    assert ps[..|ps|] == ps;
  }

  /**
   * The body of the prioritization loop for one record: exploitability from
   * the severity, business impact as given, then the risk against the
   * record's own asset.
   */
  method Reprioritize(p: RiskPrioritization, severity: int, impact: real)
    modifies p
    ensures p.State() ==
            Assessed(old(p.State()).(exploitabilityScore := (2 * severity) as real, businessImpact := impact),
                     p.assetCriticality.criticalityScore)
  {
    p.exploitabilityScore := (2 * severity) as real;
    p.businessImpact := impact;
    p.CalculateRisk();
  }

  // ------------------------------------------------------------------ tables

  /**
   * The asset-criticality and risk-prioritization tables, each a map from its
   * one-to-one key (subdomain, vulnerability) to the stored row.
   */
  datatype Tables = Tables(
    criticalities: map<SubdomainId, CriticalityState>,
    prioritizations: map<VulnerabilityId, PrioritizationRow>)
  {
    /** Rows sit under their own vulnerability, and every asset foreign key has a criticality row. */
    ghost predicate Valid()
    {
      forall k :: k in prioritizations ==>
        prioritizations[k].vulnerability == k && prioritizations[k].asset in criticalities
    }
  }

  /** A stored prioritization of `v` is weighed against `v`'s own asset. */
  ghost predicate RowConsistent(v: Vulnerability, t: Tables)
  {
    v.id in t.prioritizations ==> t.prioritizations[v.id].asset == v.subdomain
  }

  /** Stored prioritizations of the inventory's vulnerabilities are weighed against the vulnerability's own asset. */
  ghost predicate Consistent(inv: Inventory, t: Tables)
  {
    forall v :: v in inv.vulnerabilities ==> RowConsistent(v, t)
  }

  /** The vulnerability's rows hold what the current inventory gives. */
  ghost predicate Scored(inv: Inventory, v: Vulnerability, t: Tables)
    requires inv.Valid() && v in inv.vulnerabilities
  {
    && v.id in t.prioritizations
    && v.subdomain in t.criticalities
    && t.criticalities[v.subdomain] == AssessAsset(inv, SubdomainOf(inv, v))
    && t.prioritizations[v.id].asset == v.subdomain
    && var st := t.prioritizations[v.id].state;
       st == Prioritized(st, v.severity, t.criticalities[v.subdomain].criticalityScore)
  }

  /** Effort and SLA of row `k`: kept from `before` when the row was there, the defaults otherwise. */
  ghost predicate RowRemediationKept(k: VulnerabilityId, before: Tables, after: Tables)
    requires k in after.prioritizations
  {
    var effort := after.prioritizations[k].state.remediationEffort;
    var sla := after.prioritizations[k].state.slaDays;
    if k in before.prioritizations then
      effort == before.prioritizations[k].state.remediationEffort && sla == before.prioritizations[k].state.slaDays
    else
      effort == DefaultRisk.remediationEffort && sla == DefaultRisk.slaDays
  }

  /**
   * No row of `before` is gone from `after`, and every row of `after` keeps its
   * effort and SLA from `before`, or has the defaults when it is new.
   */
  ghost predicate RemediationKept(before: Tables, after: Tables)
  {
    && before.prioritizations.Keys <= after.prioritizations.Keys
    && forall k :: k in after.prioritizations ==> RowRemediationKept(k, before, after)
  }

  /** The vulnerability's prioritization row as fetched, or as created pointing at its asset. */
  function PriorRow(v: Vulnerability, prioritizations: map<VulnerabilityId, PrioritizationRow>): (r: PrioritizationRow)
    ensures v.id in prioritizations ==> r == prioritizations[v.id]
    ensures v.id !in prioritizations ==> r.vulnerability == v.id && r.asset == v.subdomain && r.state == DefaultRisk
  {
    if v.id in prioritizations then prioritizations[v.id] else PrioritizationRow(v.id, v.subdomain, DefaultRisk)
  }

  /**
   * The prioritization row after the loop body: exploitability twice the
   * severity, business impact `impact`, and the risk assessed against the
   * criticality row the row's asset key points at.
   */
  function Rescored(v: Vulnerability, impact: real, criticalities: map<SubdomainId, CriticalityState>,
                    prioritizations: map<VulnerabilityId, PrioritizationRow>): (r: PrioritizationRow)
    requires PriorRow(v, prioritizations).asset in criticalities
    ensures r.vulnerability == PriorRow(v, prioritizations).vulnerability && r.asset == PriorRow(v, prioritizations).asset
    ensures r.state.exploitabilityScore == (2 * v.severity) as real && r.state.businessImpact == impact
    ensures 3.0 * r.state.overallRiskScore ==
              criticalities[r.asset].criticalityScore + r.state.exploitabilityScore + r.state.businessImpact
    ensures r.state.priorityLevel == PriorityLevelOf(r.state.overallRiskScore)
    ensures r.state.remediationEffort == PriorRow(v, prioritizations).state.remediationEffort
    ensures r.state.slaDays == PriorRow(v, prioritizations).state.slaDays
  {
    var prior := PriorRow(v, prioritizations);
    prior.(state := Assessed(prior.state.(exploitabilityScore := (2 * v.severity) as real, businessImpact := impact),
                             criticalities[prior.asset].criticalityScore))
  }

  /**
   * One pass of the prioritization loop on the tables: the asset's criticality
   * row is recomputed and saved; the vulnerability's prioritization row is
   * fetched or created (a new one points at that asset), its exploitability
   * and business impact set, and its risk assessed against the criticality
   * row its asset key points at.
   */
  function Step(inv: Inventory, v: Vulnerability, t: Tables): (r: Tables)
    requires inv.Valid() && v in inv.vulnerabilities && t.Valid()
    ensures r.Valid()
  {
    var crit := AssessAsset(inv, SubdomainOf(inv, v));
    var criticalities := t.criticalities[v.subdomain := crit];
    Tables(criticalities, t.prioritizations[v.id := Rescored(v, crit.criticalityScore, criticalities, t.prioritizations)])
  }

  /** The tables after the loop has run over the first `n` vulnerabilities, skipping those outside `org`. */
  function Run(inv: Inventory, org: string, n: nat, t: Tables): (r: Tables)
    requires inv.Valid() && n <= |inv.vulnerabilities| && t.Valid()
    ensures r.Valid()
  {
    if n == 0 then t
    else
      var before := Run(inv, org, n - 1, t);
      var v := inv.vulnerabilities[n - 1];
      if InOrg(inv, v.domain, org) then Step(inv, v, before) else before
  }

  /** A pass leaves consistent tables consistent, and scores its vulnerability. */
  lemma StepScores(inv: Inventory, v: Vulnerability, t: Tables)
    requires inv.Valid() && v in inv.vulnerabilities && t.Valid() && Consistent(inv, t)
    ensures Consistent(inv, Step(inv, v, t))
    ensures Scored(inv, v, Step(inv, v, t))
  {
    VulnerabilityIdUnique(inv, v);
  }

  /** A pass for one vulnerability leaves every other vulnerability's score in place. */
  lemma StepPreservesScored(inv: Inventory, v: Vulnerability, w: Vulnerability, t: Tables)
    requires inv.Valid() && v in inv.vulnerabilities && w in inv.vulnerabilities && t.Valid()
    requires v.id != w.id && Scored(inv, w, t)
    ensures Scored(inv, w, Step(inv, v, t))
  {
    if v.subdomain == w.subdomain {
      assert SubdomainOf(inv, v) == SubdomainOf(inv, w);
    }
  }

  /** One more iteration of the loop: a pass when the vulnerability is the organisation's, nothing otherwise. */
  lemma RunUnfold(inv: Inventory, org: string, n: nat, t: Tables)
    requires inv.Valid() && 0 < n <= |inv.vulnerabilities| && t.Valid()
    ensures InOrg(inv, inv.vulnerabilities[n - 1].domain, org) ==>
              Run(inv, org, n, t) == Step(inv, inv.vulnerabilities[n - 1], Run(inv, org, n - 1, t))
    ensures !InOrg(inv, inv.vulnerabilities[n - 1].domain, org) ==>
              Run(inv, org, n, t) == Run(inv, org, n - 1, t)
  {
  }

  /** One iteration keeps consistent tables consistent. */
  lemma RunConsistentStep(inv: Inventory, org: string, n: nat, t: Tables)
    requires inv.Valid() && 0 < n <= |inv.vulnerabilities| && t.Valid()
    requires Consistent(inv, Run(inv, org, n - 1, t))
    ensures Consistent(inv, Run(inv, org, n, t))
  {
    var v := inv.vulnerabilities[n - 1];
    if InOrg(inv, v.domain, org) {
      StepScores(inv, v, Run(inv, org, n - 1, t));
    }
    RunUnfold(inv, org, n, t);
  }

  /** Running the loop keeps consistent tables consistent. */
  lemma {:induction false} RunConsistent(inv: Inventory, org: string, n: nat, t: Tables)
    requires inv.Valid() && n <= |inv.vulnerabilities| && t.Valid() && Consistent(inv, t)
    ensures Consistent(inv, Run(inv, org, n, t))
  {
    if n > 0 {
      RunConsistent(inv, org, n - 1, t);
      RunConsistentStep(inv, org, n, t);
    }
  }

  /** The iteration for an organisation's vulnerability scores it. */
  lemma RunScoresLast(inv: Inventory, org: string, n: nat, t: Tables)
    requires inv.Valid() && 0 < n <= |inv.vulnerabilities| && t.Valid() && Consistent(inv, t)
    requires InOrg(inv, inv.vulnerabilities[n - 1].domain, org)
    ensures Scored(inv, inv.vulnerabilities[n - 1], Run(inv, org, n, t))
  {
    RunConsistent(inv, org, n - 1, t);
    StepScores(inv, inv.vulnerabilities[n - 1], Run(inv, org, n - 1, t));
    RunUnfold(inv, org, n, t);
  }

  /** From consistent tables, a processed vulnerability of the organisation ends up scored. */
  lemma {:induction false} RunScores(inv: Inventory, org: string, n: nat, t: Tables, j: nat)
    requires inv.Valid() && n <= |inv.vulnerabilities| && t.Valid() && Consistent(inv, t)
    requires j < n && InOrg(inv, inv.vulnerabilities[j].domain, org)
    ensures Scored(inv, inv.vulnerabilities[j], Run(inv, org, n, t))
    decreases n, 1
  {
    if j == n - 1 {
      RunScoresLast(inv, org, n, t);
    } else {
      RunScoresKept(inv, org, n, t, j);
    }
  }

  /** A later iteration keeps an earlier vulnerability's score. */
  lemma {:induction false} RunScoresKept(inv: Inventory, org: string, n: nat, t: Tables, j: nat)
    requires inv.Valid() && 0 < n <= |inv.vulnerabilities| && t.Valid() && Consistent(inv, t)
    requires j < n - 1 && InOrg(inv, inv.vulnerabilities[j].domain, org)
    ensures Scored(inv, inv.vulnerabilities[j], Run(inv, org, n, t))
    decreases n, 0
  {
    RunScores(inv, org, n - 1, t, j);
    RunKeepsScored(inv, org, n, t, j);
  }

  /** An iteration for another vulnerability keeps a score in place. */
  lemma RunKeepsScored(inv: Inventory, org: string, n: nat, t: Tables, j: nat)
    requires inv.Valid() && 0 < n <= |inv.vulnerabilities| && t.Valid()
    requires j < n - 1 && Scored(inv, inv.vulnerabilities[j], Run(inv, org, n - 1, t))
    ensures Scored(inv, inv.vulnerabilities[j], Run(inv, org, n, t))
  {
    var v := inv.vulnerabilities[n - 1];
    if InOrg(inv, v.domain, org) {
      StepPreservesScored(inv, v, inv.vulnerabilities[j], Run(inv, org, n - 1, t));
    }
    RunUnfold(inv, org, n, t);
  }

  /** Among the first `n` vulnerabilities, one of the organisation's has primary key `k`. */
  ghost predicate Reached(inv: Inventory, org: string, n: nat, k: VulnerabilityId)
    requires n <= |inv.vulnerabilities|
  {
    exists j :: 0 <= j < n && InOrg(inv, inv.vulnerabilities[j].domain, org) && inv.vulnerabilities[j].id == k
  }

  lemma ReachedStep(inv: Inventory, org: string, n: nat, k: VulnerabilityId)
    requires 0 < n <= |inv.vulnerabilities|
    ensures Reached(inv, org, n, k) <==>
            Reached(inv, org, n - 1, k) ||
            (InOrg(inv, inv.vulnerabilities[n - 1].domain, org) && inv.vulnerabilities[n - 1].id == k)
  {
    if Reached(inv, org, n, k) {
      var j :| 0 <= j < n && InOrg(inv, inv.vulnerabilities[j].domain, org) && inv.vulnerabilities[j].id == k;
      if j < n - 1 {
        assert Reached(inv, org, n - 1, k);
      }
    }
  }

  /** One iteration adds the row of its vulnerability when it is the organisation's, and no other. */
  lemma RunKeysStep(inv: Inventory, org: string, n: nat, t: Tables, k: VulnerabilityId)
    requires inv.Valid() && 0 < n <= |inv.vulnerabilities| && t.Valid()
    ensures k in Run(inv, org, n, t).prioritizations <==>
            k in Run(inv, org, n - 1, t).prioritizations ||
            (InOrg(inv, inv.vulnerabilities[n - 1].domain, org) && inv.vulnerabilities[n - 1].id == k)
  {
    RunUnfold(inv, org, n, t);
  }

  /** The loop adds a prioritization row for each processed vulnerability of the organisation, and no other. */
  lemma {:induction false} RunKeys(inv: Inventory, org: string, n: nat, t: Tables, k: VulnerabilityId)
    requires inv.Valid() && n <= |inv.vulnerabilities| && t.Valid()
    ensures k in Run(inv, org, n, t).prioritizations <==> k in t.prioritizations || Reached(inv, org, n, k)
  {
    if n > 0 {
      RunKeys(inv, org, n - 1, t, k);
      RunKeysStep(inv, org, n, t, k);
      ReachedStep(inv, org, n, k);
    }
  }

  /** Rows of vulnerabilities the loop does not reach are left exactly as they were. */
  lemma {:induction false} RunKeepsOthers(inv: Inventory, org: string, n: nat, t: Tables, k: VulnerabilityId)
    requires inv.Valid() && n <= |inv.vulnerabilities| && t.Valid() && k in t.prioritizations
    requires forall j :: 0 <= j < n && InOrg(inv, inv.vulnerabilities[j].domain, org) ==> inv.vulnerabilities[j].id != k
    ensures k in Run(inv, org, n, t).prioritizations
    ensures Run(inv, org, n, t).prioritizations[k] == t.prioritizations[k]
  {
    if n > 0 {
      RunKeepsOthers(inv, org, n - 1, t, k);
    }
  }

  /** Criticality rows of subdomains the loop never reaches are left exactly as they were. */
  lemma {:induction false} RunKeepsOtherAssets(inv: Inventory, org: string, n: nat, t: Tables, id: SubdomainId)
    requires inv.Valid() && n <= |inv.vulnerabilities| && t.Valid()
    requires forall j :: 0 <= j < n && InOrg(inv, inv.vulnerabilities[j].domain, org) ==> inv.vulnerabilities[j].subdomain != id
    ensures (id in Run(inv, org, n, t).criticalities) == (id in t.criticalities)
    ensures id in t.criticalities ==> Run(inv, org, n, t).criticalities[id] == t.criticalities[id]
  {
    if n > 0 {
      RunKeepsOtherAssets(inv, org, n - 1, t, id);
    }
  }

  /** A pass keeps the effort and SLA of an existing row, and a created row gets the defaults. */
  lemma StepRemediationKept(inv: Inventory, v: Vulnerability, t: Tables)
    requires inv.Valid() && v in inv.vulnerabilities && t.Valid()
    ensures RemediationKept(t, Step(inv, v, t))
  {
  }

  lemma RemediationKeptTransitive(a: Tables, b: Tables, c: Tables)
    requires RemediationKept(a, b) && RemediationKept(b, c)
    ensures RemediationKept(a, c)
  {
  }

  /** One iteration keeps the effort and SLA of existing rows and gives a new row the defaults. */
  lemma RunRemediationKeptStep(inv: Inventory, org: string, n: nat, t: Tables)
    requires inv.Valid() && 0 < n <= |inv.vulnerabilities| && t.Valid()
    ensures RemediationKept(Run(inv, org, n - 1, t), Run(inv, org, n, t))
  {
    RunUnfold(inv, org, n, t);
    if InOrg(inv, inv.vulnerabilities[n - 1].domain, org) {
      StepRemediationKept(inv, inv.vulnerabilities[n - 1], Run(inv, org, n - 1, t));
    }
  }

  /** The loop keeps the effort and SLA of existing rows and gives new rows the defaults. */
  lemma {:induction false} RunRemediationKept(inv: Inventory, org: string, n: nat, t: Tables)
    requires inv.Valid() && n <= |inv.vulnerabilities| && t.Valid()
    ensures RemediationKept(t, Run(inv, org, n, t))
  {
    if n > 0 {
      RunRemediationKept(inv, org, n - 1, t);
      RunRemediationKeptStep(inv, org, n, t);
      RemediationKeptTransitive(t, Run(inv, org, n - 1, t), Run(inv, org, n, t));
    }
  }

  /** A pass over a vulnerability that is already scored changes nothing. */
  lemma StepKeepsScored(inv: Inventory, v: Vulnerability, t: Tables)
    requires inv.Valid() && v in inv.vulnerabilities && t.Valid() && Scored(inv, v, t)
    ensures Step(inv, v, t) == t
  {
    var r := Step(inv, v, t);
    assert r.criticalities == t.criticalities;
    assert r.prioritizations == t.prioritizations;
  }

  /** The loop leaves tables alone in which every vulnerability it reaches is already scored. */
  lemma {:induction false} RunFixed(inv: Inventory, org: string, n: nat, t: Tables)
    requires inv.Valid() && n <= |inv.vulnerabilities| && t.Valid()
    requires forall j :: 0 <= j < n && InOrg(inv, inv.vulnerabilities[j].domain, org) ==>
               Scored(inv, inv.vulnerabilities[j], t)
    ensures Run(inv, org, n, t) == t
  {
    if n > 0 {
      RunFixed(inv, org, n - 1, t);
      var v := inv.vulnerabilities[n - 1];
      if InOrg(inv, v.domain, org) {
        StepKeepsScored(inv, v, t);
      }
      RunUnfold(inv, org, n, t);
    }
  }

  /** From consistent tables, running the loop a second time over the same inventory changes nothing. */
  lemma RunIdempotent(inv: Inventory, org: string, t: Tables)
    requires inv.Valid() && t.Valid() && Consistent(inv, t)
    ensures var once := Run(inv, org, |inv.vulnerabilities|, t);
            Run(inv, org, |inv.vulnerabilities|, once) == once
  {
    var n := |inv.vulnerabilities|;
    var once := Run(inv, org, n, t);
    forall j | 0 <= j < n && InOrg(inv, inv.vulnerabilities[j].domain, org)
      ensures Scored(inv, inv.vulnerabilities[j], once)
    {
      RunScores(inv, org, n, t, j);
    }
    RunFixed(inv, org, n, once);
  }

  /** A reordering of the rows of `vulns` holds the row of each of them and no other. */
  lemma RowsMembership(vulns: seq<Vulnerability>, prioritizations: map<VulnerabilityId, PrioritizationRow>,
                       rows: seq<PrioritizationRow>, ranked: seq<PrioritizationRow>)
    requires forall v :: v in vulns ==> v.id in prioritizations
    requires |rows| == |vulns| && forall j :: 0 <= j < |vulns| ==> rows[j] == prioritizations[vulns[j].id]
    requires multiset(ranked) == multiset(rows)
    ensures |ranked| == |vulns|
    ensures forall v :: v in vulns ==> prioritizations[v.id] in ranked
    ensures forall r :: r in ranked ==> exists v :: v in vulns && prioritizations[v.id] == r
  {
    assert |ranked| == |multiset(ranked)| == |multiset(rows)| == |rows|;
    forall v | v in vulns
      ensures prioritizations[v.id] in ranked
    {
      var j :| 0 <= j < |vulns| && vulns[j] == v;
      assert rows[j] in multiset(rows);
    }
    forall r | r in ranked
      ensures exists v :: v in vulns && prioritizations[v.id] == r
    {
      assert r in multiset(rows);
      var j :| 0 <= j < |rows| && rows[j] == r;
      assert vulns[j] in vulns;
    }
  }

  // ------------------------------------------------------------------ engine

  /** The risk engine over the two tables; the records it works on are instances loaded from, and saved to, their rows. */
  class RiskEngine {
    var criticalities: map<SubdomainId, CriticalityState>
    var prioritizations: map<VulnerabilityId, PrioritizationRow>

    function Contents(): Tables
      reads this
    {
      Tables(criticalities, prioritizations)
    }

    constructor ()
      ensures Contents() == Tables(map[], map[])
    {
      criticalities := map[];
      prioritizations := map[];
    }

    /**
     * Gets or creates the subdomain's criticality record, recomputes it from
     * the inventory and saves it.  Returns the in-memory record.
     */
    method CalculateAssetCriticality(inv: Inventory, s: Subdomain) returns (c: AssetCriticality)
      modifies this
      ensures prioritizations == old(prioritizations)
      ensures fresh(c) && c.subdomain == s.id
      ensures c.State() == AssessAsset(inv, s)
      ensures criticalities == old(criticalities)[s.id := c.State()]
    {
      if s.id in criticalities {
        c := new AssetCriticality.Load(s.id, criticalities[s.id]);
      } else {
        c := new AssetCriticality(s.id);
        criticalities := criticalities[s.id := c.State()];
      }
      var vulnScore := VulnScore(SeveritiesOf(inv, s.id));
      var techScore := TechScore(s.technologies);
      c.businessValue := AtMostTen(vulnScore + s.endpointCount as real / 10.0 + techScore as real);
      c.dataSensitivity := AtMostTen(vulnScore + techScore as real);
      c.CalculateCriticality();
      criticalities := criticalities[s.id := c.State()];
    }

    /**
     * Gets or creates the vulnerability's prioritization record, scores it with
     * business impact taken from the asset record `c`, and saves it.
     */
    method SavePrioritization(v: Vulnerability, c: AssetCriticality)
      requires Contents().Valid() && c.subdomain == v.subdomain
      requires v.subdomain in criticalities && criticalities[v.subdomain] == c.State()
      modifies `prioritizations
      ensures prioritizations ==
              old(prioritizations)[v.id := Rescored(v, c.criticalityScore, criticalities, old(prioritizations))]
    {
      var p: RiskPrioritization;
      if v.id in prioritizations {
        var row := prioritizations[v.id];
        var asset := new AssetCriticality.Load(row.asset, criticalities[row.asset]);
        p := new RiskPrioritization.Load(v.id, asset, row.state);
      } else {
        p := new RiskPrioritization(v.id, c);
        prioritizations := prioritizations[v.id := PrioritizationRow(v.id, c.subdomain, p.State())];
      }
      Reprioritize(p, v.severity, c.criticalityScore);
      prioritizations := prioritizations[v.id := PrioritizationRow(v.id, p.assetCriticality.subdomain, p.State())];
    }

    /** One pass of the prioritization loop, for one vulnerability. */
    method PrioritizeVulnerability(inv: Inventory, v: Vulnerability)
      requires inv.Valid() && v in inv.vulnerabilities && Contents().Valid()
      modifies this
      ensures Contents() == Step(inv, v, old(Contents()))
    {
      var c := CalculateAssetCriticality(inv, SubdomainOf(inv, v));
      SavePrioritization(v, c);
    }

    /**
     * Scores every vulnerability of the organisation against its asset, then
     * returns the organisation's prioritization rows, riskiest first.
     */
    method PrioritizeVulnerabilities(inv: Inventory, org: string) returns (ranked: seq<PrioritizationRow>)
      requires inv.Valid() && Contents().Valid()
      modifies this
      ensures Contents() == Run(inv, org, |inv.vulnerabilities|, old(Contents()))
      ensures SortedByRisk(ranked)
      ensures |ranked| == |OrgVulnerabilities(inv, org)|
      ensures forall v :: v in inv.vulnerabilities && InOrg(inv, v.domain, org) ==>
                v.id in prioritizations && prioritizations[v.id] in ranked
      ensures forall r :: r in ranked ==>
                exists v :: v in inv.vulnerabilities && InOrg(inv, v.domain, org) &&
                  v.id in prioritizations && prioritizations[v.id] == r
    {
      var vulns := inv.vulnerabilities;
      for i := 0 to |vulns|
        invariant Contents() == Run(inv, org, i, old(Contents()))
      {
        var v := vulns[i];
        if InOrg(inv, v.domain, org) {
          PrioritizeVulnerability(inv, v);
        }
      }
      forall v | v in vulns && InOrg(inv, v.domain, org)
        ensures v.id in prioritizations
      {
        var j :| 0 <= j < |vulns| && vulns[j] == v;
        RunKeys(inv, org, |vulns|, old(Contents()), v.id);
      }
      ranked := RankedRows(inv, org);
    }

    /** The stored prioritization rows of `vulns`, in order. */
    method RowsOf(vulns: seq<Vulnerability>) returns (rows: seq<PrioritizationRow>)
      requires forall v :: v in vulns ==> v.id in prioritizations
      ensures |rows| == |vulns|
      ensures forall j :: 0 <= j < |vulns| ==> rows[j] == prioritizations[vulns[j].id]
    {
      rows := [];
      for i := 0 to |vulns|
        invariant |rows| == i
        invariant forall j :: 0 <= j < i ==> rows[j] == prioritizations[vulns[j].id]
      {
        rows := rows + [prioritizations[vulns[i].id]];
      }
    }

    /** The organisation's prioritization rows, riskiest first: one per vulnerability of the organisation. */
    method RankedRows(inv: Inventory, org: string) returns (ranked: seq<PrioritizationRow>)
      requires forall v :: v in inv.vulnerabilities && InOrg(inv, v.domain, org) ==> v.id in prioritizations
      ensures SortedByRisk(ranked)
      ensures |ranked| == |OrgVulnerabilities(inv, org)|
      ensures forall v :: v in inv.vulnerabilities && InOrg(inv, v.domain, org) ==> prioritizations[v.id] in ranked
      ensures forall r :: r in ranked ==>
                exists v :: v in inv.vulnerabilities && InOrg(inv, v.domain, org) &&
                  v.id in prioritizations && prioritizations[v.id] == r
    {
      var orgVulns := OrgVulnerabilities(inv, org);
      var rows := RowsOf(orgVulns);
      ranked := SortByRiskDescending(rows);
      RowsMembership(orgVulns, prioritizations, rows, ranked);
    }
  }
}
