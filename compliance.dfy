/**
 * The compliance engine: four framework rule sets evaluated over an
 * organisation's inventory, a closed dispatch on the framework name, and the
 * report builder that upserts the organisation's draft report.
 */
module Compliance {
  import opened Wrappers
  import opened Text
  import opened Inventory
  import opened ComplianceFindings
  import opened Dashboard

  // -------------------------------------------------------------- frameworks

  datatype Framework = SOC2 | ISO27001 | PCI_DSS | GDPR

  /** The name under which the engine registers a framework. */
  function FrameworkName(f: Framework): string
  {
    match f
    case SOC2 => "SOC2"
    case ISO27001 => "ISO27001"
    case PCI_DSS => "PCI_DSS"
    case GDPR => "GDPR"
  }

  /** Looks a framework up by its exact, case-sensitive name. */
  function ParseFramework(name: string): (r: Option<Framework>)
    ensures r.Some? ==> FrameworkName(r.value) == name
    ensures r.None? <==> forall f: Framework :: FrameworkName(f) != name
  {
    if name == "SOC2" then Some(SOC2)
    else if name == "ISO27001" then Some(ISO27001)
    else if name == "PCI_DSS" then Some(PCI_DSS)
    else if name == "GDPR" then Some(GDPR)
    else None
  }

  /** Every registered name is recognised, as the framework it names. */
  lemma ParseFrameworkName(f: Framework)
    ensures ParseFramework(FrameworkName(f)) == Some(f)
  {
  }

  // ------------------------------------------------------------ bucket fill

  /** A bucket holding the finding `x` when the rule fires, and nothing otherwise. */
  function FlagIf(fires: bool, x: Finding): (bucket: seq<Finding>)
    ensures Reports(bucket, x.check) <==> fires
    ensures forall y :: y in bucket ==> y == x
    ensures |bucket| == if fires then 1 else 0
  {
    if fires then [x] else []
  }

  lemma ReportsAppend(a: seq<Finding>, b: seq<Finding>, check: string)
    ensures Reports(a + b, check) <==> Reports(a, check) || Reports(b, check)
  {
    if Reports(a + b, check) {
      var x :| x in a + b && x.check == check;
      assert x in a || x in b;
    }
    if Reports(a, check) {
      var x :| x in a && x.check == check;
      assert x in a + b;
    }
    if Reports(b, check) {
      var x :| x in b && x.check == check;
      assert x in a + b;
    }
  }

  /** Two flagged buckets joined hold only their two findings. */
  lemma FlagIfAppend(a: bool, x: Finding, b: bool, y: Finding)
    ensures forall z :: z in FlagIf(a, x) + FlagIf(b, y) ==> z == x || z == y
  {
  }

  // -------------------------------------------------------------------- SOC2

  const AdminPanelExposure := "Admin Panel Exposure"
  const UnencryptedCommunications := "Unencrypted Communications"
  const HighSeverityVulnerabilities := "High-Severity Vulnerabilities"

  /** An organisation subdomain whose URL contains `admin`, in any case. */
  predicate IsAdminPanel(inv: Inventory, org: string, s: Subdomain)
  {
    InOrg(inv, s.domain, org) && ContainsIgnoreCase(s.httpUrl, "admin")
  }

  /** An organisation subdomain whose URL starts with `http://` and does not contain `https://`. */
  predicate IsHttpOnly(inv: Inventory, org: string, s: Subdomain)
  {
    InOrg(inv, s.domain, org) && StartsWith(s.httpUrl, "http://") && !Contains(s.httpUrl, "https://")
  }

  /** An organisation vulnerability of severity 3, 4 or 5. */
  predicate IsHighSeverity(inv: Inventory, org: string, v: Vulnerability)
  {
    InOrg(inv, v.domain, org) && v.severity in {3, 4, 5}
  }

  function AdminPanels(inv: Inventory, org: string): (r: seq<Subdomain>)
    ensures |r| > 0 <==> exists s :: s in inv.subdomains && IsAdminPanel(inv, org, s)
  {
    FilterNonEmpty(inv.subdomains, (s: Subdomain) => IsAdminPanel(inv, org, s));
    Filter(inv.subdomains, (s: Subdomain) => IsAdminPanel(inv, org, s))
  }

  function HttpOnlyEndpoints(inv: Inventory, org: string): (r: seq<Subdomain>)
    ensures |r| > 0 <==> exists s :: s in inv.subdomains && IsHttpOnly(inv, org, s)
  {
    FilterNonEmpty(inv.subdomains, (s: Subdomain) => IsHttpOnly(inv, org, s));
    Filter(inv.subdomains, (s: Subdomain) => IsHttpOnly(inv, org, s))
  }

  function HighSeverityVulns(inv: Inventory, org: string): (r: seq<Vulnerability>)
    ensures |r| > 0 <==> exists v :: v in inv.vulnerabilities && IsHighSeverity(inv, org, v)
  {
    FilterNonEmpty(inv.vulnerabilities, (v: Vulnerability) => IsHighSeverity(inv, org, v));
    Filter(inv.vulnerabilities, (v: Vulnerability) => IsHighSeverity(inv, org, v))
  }

  /** `prefix + count + suffix` mentions the count, and the count can be read back from it. */
  lemma CountInDescription(prefix: string, suffix: string, m: nat, n: nat)
    ensures Contains(prefix + NatToString(m) + suffix, NatToString(m))
    ensures prefix + NatToString(m) + suffix == prefix + NatToString(n) + suffix ==> m == n
  {
    var a := prefix + NatToString(m) + suffix;
    assert a[|prefix|..|prefix| + |NatToString(m)|] == NatToString(m);
    assert OccursAt(a, NatToString(m), |prefix|);
    if a == prefix + NatToString(n) + suffix {
      assert |NatToString(m)| == |NatToString(n)|;
      assert a[|prefix|..|prefix| + |NatToString(n)|] == NatToString(n);
      NatToStringInjective(m, n);
    }
  }

  function AdminPanelFinding(count: nat): (x: Finding)
    ensures x.check == AdminPanelExposure && x.severity == Severity.High
    ensures Contains(x.description, NatToString(count))
  {
    CountInDescription("Found ", " exposed admin panels", count, count);
    Finding(AdminPanelExposure, Severity.High,
            "Found " + NatToString(count) + " exposed admin panels",
            "Implement proper access controls and monitoring")
  }

  function HttpOnlyFinding(count: nat): (x: Finding)
    ensures x.check == UnencryptedCommunications && x.severity == Severity.Medium
    ensures Contains(x.description, NatToString(count))
  {
    CountInDescription("Found ", " endpoints using HTTP only", count, count);
    Finding(UnencryptedCommunications, Severity.Medium,
            "Found " + NatToString(count) + " endpoints using HTTP only",
            "Implement HTTPS everywhere")
  }

  function HighSeverityFinding(count: nat): (x: Finding)
    ensures x.check == HighSeverityVulnerabilities && x.severity == Severity.Critical
    ensures Contains(x.description, NatToString(count))
  {
    CountInDescription("Found ", " high-severity vulnerabilities", count, count);
    Finding(HighSeverityVulnerabilities, Severity.Critical,
            "Found " + NatToString(count) + " high-severity vulnerabilities",
            "Immediate remediation required")
  }

  /** A finding built for one count is never the finding built for another. */
  lemma FindingsCarryCounts(m: nat, n: nat)
    ensures AdminPanelFinding(m) == AdminPanelFinding(n) ==> m == n
    ensures HttpOnlyFinding(m) == HttpOnlyFinding(n) ==> m == n
    ensures HighSeverityFinding(m) == HighSeverityFinding(n) ==> m == n
  {
    CountInDescription("Found ", " exposed admin panels", m, n);
    CountInDescription("Found ", " endpoints using HTTP only", m, n);
    CountInDescription("Found ", " high-severity vulnerabilities", m, n);
  }

  function Soc2Checks(inv: Inventory, org: string): (f: Findings)
    ensures f.passed == []
    ensures Reports(f.failed, AdminPanelExposure) <==>
              exists s :: s in inv.subdomains && IsAdminPanel(inv, org, s)
    ensures Reports(f.warnings, UnencryptedCommunications) <==>
              exists s :: s in inv.subdomains && IsHttpOnly(inv, org, s)
    ensures Reports(f.failed, HighSeverityVulnerabilities) <==>
              exists v :: v in inv.vulnerabilities && IsHighSeverity(inv, org, v)
    ensures forall x :: x in f.failed ==>
              x == AdminPanelFinding(|AdminPanels(inv, org)|) || x == HighSeverityFinding(|HighSeverityVulns(inv, org)|)
    ensures forall x :: x in f.warnings ==> x == HttpOnlyFinding(|HttpOnlyEndpoints(inv, org)|)
    ensures |f.failed| == (if |AdminPanels(inv, org)| > 0 then 1 else 0) + (if |HighSeverityVulns(inv, org)| > 0 then 1 else 0)
    ensures |f.warnings| == if |HttpOnlyEndpoints(inv, org)| > 0 then 1 else 0
  {
    var admin := FlagIf(|AdminPanels(inv, org)| > 0, AdminPanelFinding(|AdminPanels(inv, org)|));
    var high := FlagIf(|HighSeverityVulns(inv, org)| > 0, HighSeverityFinding(|HighSeverityVulns(inv, org)|));
    var httpOnly := FlagIf(|HttpOnlyEndpoints(inv, org)| > 0, HttpOnlyFinding(|HttpOnlyEndpoints(inv, org)|));
    FlagIfAppend(|AdminPanels(inv, org)| > 0, AdminPanelFinding(|AdminPanels(inv, org)|),
                 |HighSeverityVulns(inv, org)| > 0, HighSeverityFinding(|HighSeverityVulns(inv, org)|));
    assert |AdminPanelExposure| != |HighSeverityVulnerabilities|;
    assert !Reports(high, AdminPanelExposure);
    assert !Reports(admin, HighSeverityVulnerabilities);
    ReportsAppend(admin, high, AdminPanelExposure);
    ReportsAppend(admin, high, HighSeverityVulnerabilities);
    Findings([], admin + high, httpOnly)
  }

  /** A URL that starts with `https://` is never reported as unencrypted. */
  lemma HttpsIsNotHttpOnly(inv: Inventory, org: string, s: Subdomain)
    requires StartsWith(s.httpUrl, "https://")
    ensures !IsHttpOnly(inv, org, s)
  {
    StartsWithContains(s.httpUrl, "https://");
  }

  /** The inventory of organisation "Acme": one admin subdomain served over HTTPS, with one severity-5 vulnerability. */
  const AcmeInventory :=
    Inventory([Domain(1, "Acme", None)],
              [Subdomain(10, 1, "https://admin.acme.com", "", "", [], 0)],
              [Vulnerability(100, 1, 10, 5)])

  /** Acme's admin subdomain and its vulnerability are the organisation's, and the subdomain is not HTTP-only. */
  lemma AcmeRows()
    ensures IsAdminPanel(AcmeInventory, "Acme", AcmeInventory.subdomains[0])
    ensures IsHighSeverity(AcmeInventory, "Acme", AcmeInventory.vulnerabilities[0])
    ensures forall s :: s in AcmeInventory.subdomains ==> !IsHttpOnly(AcmeInventory, "Acme", s)
  {
    var s := AcmeInventory.subdomains[0];
    assert OccursAt("Acme", "Acme", 0);
    ContainsIgnoresCase("Acme", "Acme");
    assert DomainInOrg(AcmeInventory.domains[0], "Acme");
    assert OccursAt(s.httpUrl, "admin", 8);
    ContainsIgnoresCase(s.httpUrl, "admin");
    HttpsIsNotHttpOnly(AcmeInventory, "Acme", s);
  }

  /**
   * For Acme the SOC2 rules give two failed findings, admin exposure and
   * high-severity vulnerabilities, with no warning and nothing passed.
   */
  lemma AcmeScenario()
    ensures var f := Soc2Checks(AcmeInventory, "Acme");
            && f.passed == [] && |f.failed| == 2 && f.warnings == []
            && Reports(f.failed, AdminPanelExposure) && Reports(f.failed, HighSeverityVulnerabilities)
  {
    AcmeRows();
    assert AcmeInventory.subdomains[0] in AcmeInventory.subdomains;
    assert AcmeInventory.vulnerabilities[0] in AcmeInventory.vulnerabilities;
  }

  // ---------------------------------------------------------------- ISO27001

  const AssetInventoryCompleteness := "Asset Inventory Completeness"
  const RegularSecurityAssessments := "Regular Security Assessments"

  /** The subdomain count below which the inventory is considered incomplete. */
  const MinimumSubdomains := 10

  /** Scanned at or after the cutoff (a NULL scan date never is). */
  predicate ScannedSince(d: Domain, cutoff: Instant)
  {
    d.startScanDate.Some? && d.startScanDate.value >= cutoff
  }

  /** The organisation's domains scanned in the 90 days before `now`. */
  function RecentlyScanned(inv: Inventory, org: string, now: Instant): (r: seq<Domain>)
    ensures forall d :: d in r <==> d in OrgDomains(inv, org) && ScannedSince(d, now - 90 * SecondsPerDay)
    ensures |r| <= |OrgDomains(inv, org)|
  {
    Filter(OrgDomains(inv, org), (d: Domain) => ScannedSince(d, now - 90 * SecondsPerDay))
  }

  /** Fewer than 80% of the organisation's domains were scanned in the last 90 days. */
  predicate ScanCoverageLow(inv: Inventory, org: string, now: Instant)
  {
    (|RecentlyScanned(inv, org, now)| as real) < (|OrgDomains(inv, org)| as real) * 0.8
  }

  const IncompleteInventoryFinding :=
    Finding(AssetInventoryCompleteness, Severity.Medium,
            "Limited asset discovery - may indicate incomplete inventory",
            "Perform comprehensive asset discovery")

  const StaleScansFinding :=
    Finding(RegularSecurityAssessments, Severity.High,
            "Not all assets scanned within last 90 days",
            "Implement regular automated scanning")

  function Iso27001Checks(inv: Inventory, org: string, now: Instant): (f: Findings)
    ensures f.passed == []
    ensures Reports(f.warnings, AssetInventoryCompleteness) <==> |OrgSubdomains(inv, org)| < MinimumSubdomains
    ensures Reports(f.failed, RegularSecurityAssessments) <==> ScanCoverageLow(inv, org, now)
    ensures forall x :: x in f.failed ==> x == StaleScansFinding
    ensures forall x :: x in f.warnings ==> x == IncompleteInventoryFinding
    ensures |f.failed| == if ScanCoverageLow(inv, org, now) then 1 else 0
    ensures |f.warnings| == if |OrgSubdomains(inv, org)| < MinimumSubdomains then 1 else 0
  {
    Findings([],
             FlagIf(ScanCoverageLow(inv, org, now), StaleScansFinding),
             FlagIf(|OrgSubdomains(inv, org)| < MinimumSubdomains, IncompleteInventoryFinding))
  }

  /** The 80% rule in whole numbers: it fires exactly when 5 x recent < 4 x total, so never without domains. */
  lemma ScanCoverageThreshold(inv: Inventory, org: string, now: Instant)
    ensures ScanCoverageLow(inv, org, now) <==> 5 * |RecentlyScanned(inv, org, now)| < 4 * |OrgDomains(inv, org)|
    ensures OrgDomains(inv, org) == [] ==> !ScanCoverageLow(inv, org, now)
  {
  }

  // ----------------------------------------------------------------- PCI DSS

  const CardDataExposure := "Card Data Exposure"

  /** The case-sensitive URL pattern `card|payment|cvv`, searched anywhere in the URL. */
  predicate MatchesCardPattern(url: string)
  {
    Contains(url, "card") || Contains(url, "payment") || Contains(url, "cvv")
  }

  /** An organisation subdomain whose title or content type mentions `card` in any case, or whose URL matches the pattern. */
  predicate ExposesCardData(inv: Inventory, org: string, s: Subdomain)
  {
    InOrg(inv, s.domain, org) &&
    (ContainsIgnoreCase(s.pageTitle, "card") || ContainsIgnoreCase(s.contentType, "card") ||
     MatchesCardPattern(s.httpUrl))
  }

  function CardDataEndpoints(inv: Inventory, org: string): (r: seq<Subdomain>)
    ensures |r| > 0 <==> exists s :: s in inv.subdomains && ExposesCardData(inv, org, s)
  {
    FilterNonEmpty(inv.subdomains, (s: Subdomain) => ExposesCardData(inv, org, s));
    Filter(inv.subdomains, (s: Subdomain) => ExposesCardData(inv, org, s))
  }

  function CardDataFinding(count: nat): (x: Finding)
    ensures x.check == CardDataExposure && x.severity == Severity.Critical
    ensures Contains(x.description, NatToString(count))
  {
    CountInDescription("Potential card data exposure in ", " endpoints", count, count);
    Finding(CardDataExposure, Severity.Critical,
            "Potential card data exposure in " + NatToString(count) + " endpoints",
            "Immediate investigation and remediation required")
  }

  function PciDssChecks(inv: Inventory, org: string): (f: Findings)
    ensures f.passed == [] && f.warnings == []
    ensures Reports(f.failed, CardDataExposure) <==>
              exists s :: s in inv.subdomains && ExposesCardData(inv, org, s)
    ensures forall x :: x in f.failed ==> x == CardDataFinding(|CardDataEndpoints(inv, org)|)
    ensures |f.failed| == if |CardDataEndpoints(inv, org)| > 0 then 1 else 0
  {
    var exposed := CardDataEndpoints(inv, org);
    Findings([], FlagIf(|exposed| > 0, CardDataFinding(|exposed|)), [])
  }

  // -------------------------------------------------------------------- GDPR

  const PrivacyPolicy := "Privacy Policy"
  const CookieConsent := "Cookie Consent"

  /** An organisation subdomain whose URL contains `privacy`, in any case. */
  predicate IsPrivacyPage(inv: Inventory, org: string, s: Subdomain)
  {
    InOrg(inv, s.domain, org) && ContainsIgnoreCase(s.httpUrl, "privacy")
  }

  /** An organisation subdomain whose URL contains `cookie`, in any case. */
  predicate IsCookiePage(inv: Inventory, org: string, s: Subdomain)
  {
    InOrg(inv, s.domain, org) && ContainsIgnoreCase(s.httpUrl, "cookie")
  }

  function PrivacyPages(inv: Inventory, org: string): (r: seq<Subdomain>)
    ensures |r| > 0 <==> exists s :: s in inv.subdomains && IsPrivacyPage(inv, org, s)
  {
    FilterNonEmpty(inv.subdomains, (s: Subdomain) => IsPrivacyPage(inv, org, s));
    Filter(inv.subdomains, (s: Subdomain) => IsPrivacyPage(inv, org, s))
  }

  function CookiePages(inv: Inventory, org: string): (r: seq<Subdomain>)
    ensures |r| > 0 <==> exists s :: s in inv.subdomains && IsCookiePage(inv, org, s)
  {
    FilterNonEmpty(inv.subdomains, (s: Subdomain) => IsCookiePage(inv, org, s));
    Filter(inv.subdomains, (s: Subdomain) => IsCookiePage(inv, org, s))
  }

  const NoPrivacyPolicyFinding :=
    Finding(PrivacyPolicy, Severity.High, "No privacy policy page found", "Publish comprehensive privacy policy")

  const NoCookiePolicyFinding :=
    Finding(CookieConsent, Severity.Medium, "No cookie policy page found", "Implement cookie consent mechanism")

  function GdprChecks(inv: Inventory, org: string): (f: Findings)
    ensures f.passed == []
    ensures Reports(f.failed, PrivacyPolicy) <==> forall s :: s in inv.subdomains ==> !IsPrivacyPage(inv, org, s)
    ensures Reports(f.warnings, CookieConsent) <==> forall s :: s in inv.subdomains ==> !IsCookiePage(inv, org, s)
    ensures forall x :: x in f.failed ==> x == NoPrivacyPolicyFinding
    ensures forall x :: x in f.warnings ==> x == NoCookiePolicyFinding
    ensures |f.failed| == if |PrivacyPages(inv, org)| == 0 then 1 else 0
    ensures |f.warnings| == if |CookiePages(inv, org)| == 0 then 1 else 0
  {
    Findings([],
             FlagIf(|PrivacyPages(inv, org)| == 0, NoPrivacyPolicyFinding),
             FlagIf(|CookiePages(inv, org)| == 0, NoCookiePolicyFinding))
  }

  // ---------------------------------------------------------------- dispatch

  /** Runs the rule set registered for a framework. */
  function Evaluate(framework: Framework, inv: Inventory, org: string, now: Instant): (f: Findings)
    ensures f.passed == []
  {
    match framework
    case SOC2 => Soc2Checks(inv, org)
    case ISO27001 => Iso27001Checks(inv, org, now)
    case PCI_DSS => PciDssChecks(inv, org)
    case GDPR => GdprChecks(inv, org)
  }

  // ------------------------------------------------------------- report upsert

  /** How long a new draft report stays valid. */
  const ReportValidityDays := 365

  datatype ComplianceError = UnsupportedFramework(framework: string)

  /** The text of the error raised for an unknown framework name. */
  const UnsupportedPrefix := "Unsupported framework: "

  /** The text of the error raised for an unknown framework name: a fixed prefix, then the name. */
  function ErrorMessage(e: ComplianceError): (m: string)
    ensures StartsWith(m, UnsupportedPrefix) && m[|UnsupportedPrefix|..] == e.framework
  {
    UnsupportedPrefix + e.framework
  }

  /** The message names the rejected framework: different names give different messages. */
  lemma ErrorMessageNamesFramework(a: ComplianceError, b: ComplianceError)
    requires ErrorMessage(a) == ErrorMessage(b)
    ensures a == b
  {
    assert a.framework == ErrorMessage(a)[|UnsupportedPrefix|..];
  }

  /**
   * The compliance engine together with the report table it writes.
   * The table is keyed by report id; `nextId` is the next primary key.
   */
  class ComplianceEngine {
    var reports: map<ReportId, ComplianceReport>
    var nextId: ReportId

    /** Every id is below `nextId`, and each organisation has at most one draft per framework. */
    ghost predicate Valid()
      reads this
    {
      && (forall id :: id in reports ==> id < nextId)
      && (forall a, b ::
            a in reports && b in reports && reports[a].status == Draft && reports[b].status == Draft &&
            reports[a].organization == reports[b].organization && reports[a].reportType == reports[b].reportType
            ==> a == b)
    }

    constructor ()
      ensures Valid() && reports == map[]
    {
      reports := map[];
      nextId := 0;
    }

    /**
     * Evaluates `framework` for `org` and stores the findings on the
     * organisation's draft report for that framework, creating the draft,
     * valid for 365 days from `now`, when there is none.
     */
    method RunComplianceCheck(org: string, framework: string, inv: Inventory, now: Instant)
      returns (result: Result<(ReportId, Findings), ComplianceError>)
      requires Valid()
      modifies this
      ensures Valid()
      ensures ParseFramework(framework).None? ==>
                result == Err(UnsupportedFramework(framework)) &&
                reports == old(reports) && nextId == old(nextId)
      ensures ParseFramework(framework).Some? ==>
                && result.Ok?
                && result.value.1 == Evaluate(ParseFramework(framework).value, inv, org, now)
                && var id := result.value.0;
                && id in reports
                && reports[id].findings == Some(result.value.1)
                && IsDraftFor(reports[id], org, framework)
                && if id in old(reports) then
                     && IsDraftFor(old(reports)[id], org, framework)
                     && reports == old(reports)[id := old(reports)[id].(findings := Some(result.value.1))]
                   else
                     && (forall k :: k in old(reports) ==> !IsDraftFor(old(reports)[k], org, framework))
                     && reports[id].validUntil == now + ReportValidityDays * SecondsPerDay
                     && reports == old(reports)[id := NewComplianceReport(org, framework, now + ReportValidityDays * SecondsPerDay)
                                                      .(findings := Some(result.value.1))]
    {
      var selected := ParseFramework(framework);
      if selected.None? {
        return Err(UnsupportedFramework(framework));
      }
      var findings := Evaluate(selected.value, inv, org, now);
      var id: ReportId;
      if exists k :: k in reports && IsDraftFor(reports[k], org, framework) {
        id :| id in reports && IsDraftFor(reports[id], org, framework);
      } else {
        id := nextId;
        reports := reports[id := NewComplianceReport(org, framework, now + ReportValidityDays * SecondsPerDay)];
        nextId := nextId + 1;
      }
      reports := reports[id := reports[id].(findings := Some(findings))];
      return Ok((id, findings));
    }
  }
}
