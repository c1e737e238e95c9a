# Risk and compliance scoring core

A Dafny model of the scoring core of a reconnaissance platform. The platform
keeps an inventory of an organisation's domains, subdomains and
vulnerabilities. The core has two engines, both in `web/compliance/engine.py`:

- The **compliance engine** dispatches a framework name (SOC2, ISO27001,
  PCI_DSS, GDPR) to a rule set. Each rule set turns the organisation's
  inventory into `passed` / `failed` / `warnings` findings. The engine then
  stores those findings on the organisation's draft report for that
  framework, creating the draft when there is none.
- The **risk engine** recomputes each asset's criticality record from its
  vulnerabilities, endpoint count and technologies. It then scores every
  vulnerability of the organisation against the criticality of its asset and
  returns the organisation's prioritization rows, riskiest first.

The records they write come from `web/dashboard/models.py`:

- `ComplianceReport`.
- `AssetCriticality`, whose `calculate_criticality` computes a 0.6/0.4
  weighted score and a five-tier level.
- `RiskPrioritization`, whose `calculate_risk` takes the mean of three scores
  and gives a five-tier priority.

Files:

- `wrappers.dfy`: `Option` and `Result`.
- `text.dfy`: the string operations the ORM filters use. These are substring
  tests, case-insensitive containment with ASCII lower-casing, prefix tests,
  and decimal formatting of counts.
- `inventory.dfy`: the inventory snapshot (domains, subdomains,
  vulnerabilities) with its key constraints, and `Filter` as a query filter.
- `findings.dfy`: findings and the three finding buckets.
- `dashboard.dfy`:
  - the report record and its defaults;
  - the `AssetCriticality` and `RiskPrioritization` classes, whose methods
    update their fields in place;
  - the pure functions that specify those methods.
- `compliance.dfy`: the framework table, the four rule sets, and the
  `ComplianceEngine` class that owns the report table.
- `risk.dfy`:
  - the criticality and risk formulas;
  - the ordering by risk;
  - the `RiskEngine` class that owns the criticality and prioritization
    tables.

The prioritization loop is proved against `Run`, a fold of `Step` over the
vulnerability table. The lemmas about `Run` state the following:

- Every vulnerability of the organisation ends up scored against the current
  inventory.
- Prioritization rows of vulnerabilities the loop does not reach, and
  criticality rows of subdomains it does not reach, are untouched.
- The remediation effort and SLA of existing rows are kept.
- A second run changes nothing.

Django objects are modelled as follows:

- `get_or_create` yields a new in-memory instance, either loaded from the
  stored row or created with the field defaults. Saving writes the instance's
  fields back to its row.
- An existing prioritization row keeps the asset foreign key it was created
  with. `calculate_risk` reads the criticality score through that key, while
  business impact comes from the criticality just computed.
- The clock (`timezone.now()`) is a parameter, `now`, in seconds. The
  source reads the clock twice in one compliance check, once for the draft's
  `valid_until` and once for the 90-day scan cutoff; the model uses the one
  instant `now` for both.
- Scores are exact reals.

## Model

| member | source | states |
|---|---|---|
| Compliance.FrameworkName | web/compliance/engine.py:13-18 | The four names under which the engine registers its rule sets: "SOC2", "ISO27001", "PCI_DSS" and "GDPR" |
| Compliance.ParseFramework | web/compliance/engine.py:12-23 | A recognised name maps to the framework registered under it; the name is rejected exactly when no framework has it |
| Compliance.ParseFrameworkName | web/compliance/engine.py:12-18 | Each of the four registered names is accepted and selects its own rule set |
| Compliance.FlagIf | web/compliance/engine.py:55-61 | A bucket reports a check exactly when its condition fires. It then holds exactly one entry, that finding, and otherwise none |
| Compliance.IsAdminPanel | web/compliance/engine.py:50-53 | The admin-panel filter: an organisation subdomain whose URL contains "admin", ignoring case |
| Compliance.IsHttpOnly | web/compliance/engine.py:64-67 | The HTTP-only filter: an organisation subdomain whose URL starts with "http://" and does not contain "https://" |
| Compliance.IsHighSeverity | web/compliance/engine.py:78-81 | The high-severity filter: an organisation vulnerability of severity 3, 4 or 5 |
| Compliance.AdminPanels | web/compliance/engine.py:50-55 | The admin-panel query is non-empty exactly when some organisation subdomain URL contains "admin", ignoring case |
| Compliance.HttpOnlyEndpoints | web/compliance/engine.py:64-69 | The HTTP-only query is non-empty exactly when some organisation subdomain URL starts with "http://" and does not contain "https://" |
| Compliance.HighSeverityVulns | web/compliance/engine.py:78-83 | The high-severity query is non-empty exactly when some organisation vulnerability has severity 3, 4 or 5 |
| Compliance.CountInDescription | web/compliance/engine.py:59 | A description built as prefix, count, suffix contains the count, and equal descriptions mean equal counts |
| Compliance.AdminPanelFinding | web/compliance/engine.py:56-61 | The finding is the "Admin Panel Exposure" check with severity high, and its description contains the count |
| Compliance.HttpOnlyFinding | web/compliance/engine.py:70-75 | The finding is the "Unencrypted Communications" check with severity medium, and its description contains the count |
| Compliance.HighSeverityFinding | web/compliance/engine.py:84-89 | The finding is the "High-Severity Vulnerabilities" check with severity critical, and its description contains the count |
| Compliance.FindingsCarryCounts | web/compliance/engine.py:56-89 | SOC2 findings built from different counts differ, so the stored finding determines the count |
| Compliance.Soc2Checks | web/compliance/engine.py:41-91 | Nothing passes. Admin panels and high-severity vulnerabilities fail and HTTP-only endpoints warn, each exactly when its query is non-empty. Each bucket holds only those findings, with the query's count. Each fired rule adds exactly one entry, so `failed` has 0, 1 or 2 entries and `warnings` 0 or 1 |
| Compliance.HttpsIsNotHttpOnly | web/compliance/engine.py:64-67 | A URL that starts with "https://" contains "https://", so the exclusion removes it from the HTTP-only query |
| Compliance.AcmeRows | web/compliance/engine.py:50-81 | In the Acme inventory, the admin subdomain and the severity-5 vulnerability belong to "Acme" and match the admin and high-severity filters, and no subdomain is HTTP-only |
| Compliance.AcmeScenario | web/compliance/engine.py:41-91 | For organisation "Acme", with one HTTPS admin subdomain and one severity-5 vulnerability, SOC2 gives two failed findings (admin exposure and high-severity vulnerabilities), no warning and nothing passed |
| Compliance.Iso27001Checks | web/compliance/engine.py:93-128 | Nothing passes. It warns exactly when the organisation has fewer than 10 subdomains, and fails exactly when scan coverage in the last 90 days is low. Each bucket holds at most that one finding, exactly once when its rule fires |
| Compliance.ScannedSince | web/compliance/engine.py:117 | `start_scan_date__gte`: the scan date is set and no earlier than the cutoff; a NULL date never qualifies |
| Compliance.RecentlyScanned | web/compliance/engine.py:116-118 | Exactly the organisation's domains whose scan date is set and no earlier than 90 days before `now`, and no more of them than the organisation has |
| Compliance.ScanCoverageLow | web/compliance/engine.py:120 | Fewer than 80% of the organisation's domains were scanned recently, compared as exact reals |
| Compliance.ScanCoverageThreshold | web/compliance/engine.py:116-120 | Coverage is low exactly when 5 × recently scanned < 4 × domains, the 80% rule. An organisation without domains never fails |
| Compliance.MatchesCardPattern | web/compliance/engine.py:145 | The URL contains "card", "payment" or "cvv", case-sensitively, anywhere |
| Compliance.ExposesCardData | web/compliance/engine.py:140-146 | An organisation subdomain with "card" in its title or content type, ignoring case, or whose URL matches the card pattern |
| Compliance.CardDataEndpoints | web/compliance/engine.py:140-148 | The card-data query is non-empty exactly when some organisation subdomain has "card" in its title or content type (ignoring case), or "card", "payment" or "cvv" in its URL |
| Compliance.CardDataFinding | web/compliance/engine.py:149-154 | The finding is the "Card Data Exposure" check with severity critical, and its description contains the count |
| Compliance.PciDssChecks | web/compliance/engine.py:130-156 | Nothing passes and nothing warns. It fails exactly when some endpoint exposes card data, with one finding carrying the count of such endpoints |
| Compliance.IsPrivacyPage | web/compliance/engine.py:167-170 | The privacy filter: an organisation subdomain whose URL contains "privacy", ignoring case |
| Compliance.IsCookiePage | web/compliance/engine.py:181-184 | The cookie filter: an organisation subdomain whose URL contains "cookie", ignoring case |
| Compliance.PrivacyPages | web/compliance/engine.py:167-172 | The privacy query is non-empty exactly when some organisation subdomain URL contains "privacy", ignoring case |
| Compliance.CookiePages | web/compliance/engine.py:181-186 | The cookie query is non-empty exactly when some organisation subdomain URL contains "cookie", ignoring case |
| Compliance.GdprChecks | web/compliance/engine.py:158-194 | Nothing passes. It fails exactly when no privacy page exists and warns exactly when no cookie page exists, each bucket then holding exactly one finding and otherwise none |
| Compliance.Evaluate | web/compliance/engine.py:25-26 | The selected rule set runs; no rule set ever reports a passed check |
| Compliance.ErrorMessage | web/compliance/engine.py:23 | The error text is the fixed prefix "Unsupported framework: " followed by the rejected name |
| Compliance.ErrorMessageNamesFramework | web/compliance/engine.py:23 | Different rejected names give different error texts |
| Compliance.ComplianceEngine.RunComplianceCheck | web/compliance/engine.py:20-39 | An unknown framework is an error and leaves the report table unchanged. Otherwise the findings land on the organisation's draft for that framework, which is reused if it exists and otherwise created valid for 365 days from `now`. No other report changes, and there is at most one draft per organisation and framework |
| Dashboard.NewComplianceReport | web/dashboard/models.py:109-115 | A new report is a draft with empty findings and an empty remediation plan |
| Dashboard.IsDraftFor | web/compliance/engine.py:29-32 | The `get_or_create` lookup: a report with status draft for this organisation and report type |
| Dashboard.CriticalityLevelOf | web/dashboard/models.py:166-175 | Each of the five levels is chosen exactly on its score band: ≥8, [6,8), [4,6), [2,4), <2 |
| Dashboard.CriticalityLevelMonotonic | web/dashboard/models.py:166-175 | A higher score never gets a lower criticality level |
| Dashboard.WeightedCriticality | web/dashboard/models.py:163 | The 0.6/0.4 weighted score lies between business value and data sensitivity |
| Dashboard.Calculated | web/dashboard/models.py:161-177 | The inputs are kept, the level matches the score, and inputs on the 0..10 scale give a score on that scale |
| Dashboard.CalculatedIdempotent | web/dashboard/models.py:161-177 | Recalculating changes nothing, and the result depends only on business value and data sensitivity |
| Dashboard.AssetCriticality.constructor | web/dashboard/models.py:153-157 | A new record has business value 5, data sensitivity 5, score 0 and level medium |
| Dashboard.AssetCriticality.Load | web/compliance/engine.py:204-207 | A fetched record holds the stored row |
| Dashboard.AssetCriticality.CalculateCriticality | web/dashboard/models.py:161-177 | Score and level are recomputed in place and nothing else changes |
| Dashboard.PriorityLevelOf | web/dashboard/models.py:222-231 | Each of the five priorities is chosen exactly on its score band: ≥8, [6,8), [4,6), [2,4), <2 |
| Dashboard.PriorityLevelMonotonic | web/dashboard/models.py:222-231 | A higher risk score never gets a lower priority |
| Dashboard.RiskScore | web/dashboard/models.py:220 | Three times the risk is the sum of criticality, exploitability and impact, so it never exceeds the largest of them |
| Dashboard.Assessed | web/dashboard/models.py:218-233 | Only the overall score and the priority change, and the priority matches the score |
| Dashboard.AssessedIdempotent | web/dashboard/models.py:218-233 | Reassessing with the same criticality changes nothing |
| Dashboard.RiskPrioritization.constructor | web/dashboard/models.py:208-215 | A new record has zero scores, priority medium, effort medium and an SLA of 30 days |
| Dashboard.RiskPrioritization.Load | web/compliance/engine.py:240-243 | A fetched record holds the stored row and its stored asset |
| Dashboard.RiskPrioritization.CalculateRisk | web/dashboard/models.py:218-233 | The risk is reassessed in place against the criticality score of the record's own asset |
| Text.LowerString | web/compliance/engine.py:219 | `lower()` on a technology name, folding the ASCII letters A-Z character by character |
| Text.Contains | web/compliance/engine.py:67 | A case-sensitive `contains` filter: the needle occurs at some position of the text |
| Text.ContainsIgnoreCase | web/compliance/engine.py:52 | An `icontains` filter: the ASCII-lower-cased needle occurs in the ASCII-lower-cased text |
| Text.StartsWith | web/compliance/engine.py:66 | A case-sensitive `startswith` filter: the text begins with the prefix |
| Text.ContainsIgnoresCase | web/compliance/engine.py:50-53 | A case-sensitive match is also a case-insensitive one |
| Text.StartsWithContains | web/compliance/engine.py:64-67 | A string that starts with a prefix contains it |
| Text.NatToString | web/compliance/engine.py:59 | A count is written as a non-empty string of decimal digits, with a leading zero only for zero |
| Text.ParseNatToString | web/compliance/engine.py:59 | Reading back a formatted count gives the count |
| Text.NatToStringInjective | web/compliance/engine.py:59 | Different counts give different descriptions |
| Inventory.Filter | web/compliance/engine.py:50-53 | A filtered query holds exactly the rows that satisfy the filter, and no more rows than the table |
| Inventory.FilterMultiset | web/compliance/engine.py:50-53 | A filtered query keeps each qualifying row as often as the table has it, and drops every other row |
| Inventory.FilterNonEmpty | web/compliance/engine.py:55 | `exists()` on a filtered query holds exactly when some row qualifies |
| Inventory.DomainInOrg | web/compliance/engine.py:102 | `project__name__icontains=organization`: the domain's project name contains the organisation name, ignoring case |
| Inventory.InOrg | web/compliance/engine.py:51 | The row's target domain is a domain of the inventory whose project name contains the organisation name, ignoring case |
| Inventory.OrgDomains | web/compliance/engine.py:102 | Exactly the domains whose project name contains the organisation name, ignoring case |
| Inventory.EmptyOrganisationSelectsAll | web/compliance/engine.py:102 | An empty organisation name selects every domain |
| Inventory.OrgSubdomains | web/compliance/engine.py:103-105 | Exactly the subdomains whose target domain belongs to the organisation |
| Inventory.OrgVulnerabilities | web/compliance/engine.py:233-235 | Exactly the vulnerabilities whose target domain belongs to the organisation |
| Inventory.FindSubdomain | web/compliance/engine.py:238 | A lookup by key finds a row with that key, and fails exactly when there is none |
| Inventory.SubdomainOf | web/compliance/engine.py:238 | A vulnerability's subdomain foreign key resolves to an existing subdomain |
| Inventory.VulnerabilityIdUnique | web/compliance/engine.py:240-243 | The vulnerability key determines the vulnerability, so a prioritization row keyed by it is unambiguous |
| Inventory.Severities | web/compliance/engine.py:210 | The severities of the vulnerabilities found on the subdomain, in table order, no more of them than the table has |
| Inventory.SeveritiesMembers | web/compliance/engine.py:210 | The severities collected for an asset are exactly those of its vulnerabilities |
| Inventory.SeveritiesPerVulnerability | web/compliance/engine.py:210-211 | One severity per vulnerability on the subdomain, in table order: entry i is the severity of the i-th such vulnerability |
| Inventory.SeveritiesOf | web/compliance/engine.py:210 | The asset's severities, as many as it has vulnerabilities, including each of its vulnerabilities' severities |
| Risk.VulnScore | web/compliance/engine.py:211 | An asset with no vulnerabilities scores 0, because the divisor is at least 1 |
| Risk.VulnScoreBounds | web/compliance/engine.py:211 | The vulnerability score is the mean severity, between the smallest and largest severity |
| Risk.AnySensitive | web/compliance/engine.py:217-220 | The technology bonus applies exactly when some technology, lower-cased, is one of wordpress, joomla, drupal, php, mysql |
| Risk.TechScore | web/compliance/engine.py:217-220 | 3 when some technology, lower-cased, is a sensitive name, and 1 otherwise |
| Risk.AtMostTen | web/compliance/engine.py:223-224 | `min(10, x)`: at most 10 and at most x, and equal to one of them |
| Risk.AssetCriticalityOf | web/compliance/engine.py:209-226 | Business value and data sensitivity are capped at 10, the level matches the score, and without vulnerabilities both come from the endpoint count and the technology score alone |
| Risk.AssetCriticalityBounds | web/compliance/engine.py:223-226 | With severities of at least -1, business value, data sensitivity and the criticality score all lie in 0..10 |
| Risk.WordPressAssetExample | web/compliance/engine.py:211-226 | A WordPress asset with no vulnerabilities and 20 endpoints gets business value 5, sensitivity 3, score 4.2, level medium |
| Risk.AssessAsset | web/compliance/engine.py:209-226 | The asset's criticality from the current inventory: the criticality formula applied to the severities of the vulnerabilities on that subdomain, its endpoint count and its technologies |
| Risk.AssessAssetBounds | web/compliance/engine.py:209-226 | When every vulnerability on the asset has severity at least -1, its business value, data sensitivity and criticality score lie in 0..10 |
| Risk.Prioritized | web/compliance/engine.py:245-251 | Exploitability is twice the severity and business impact the asset's criticality. Effort and SLA are kept, and the priority matches the overall score |
| Risk.PrioritizedIdempotent | web/compliance/engine.py:245-251 | Scoring the same vulnerability again changes nothing |
| Risk.RiskScoreBounds | web/dashboard/models.py:218-220 | Severity in 0..5 and criticality in 0..10 give an overall risk in 0..10 |
| Risk.RiskScoreMonotonic | web/dashboard/models.py:218-231 | A more severe vulnerability on a more critical asset never gets a lower risk score or priority |
| Risk.SeverityFourExample | web/compliance/engine.py:245-251 | Severity 4 on an asset of criticality 6 gives exploitability 8, risk 20/3 and priority high |
| Risk.InsertionPoint | web/compliance/engine.py:255 | The insertion point follows every row at least as risky and precedes the first less risky one |
| Risk.SortByRiskDescending | web/compliance/engine.py:255 | `order_by('-overall_risk_score')`: the result is a permutation of the rows, with non-increasing risk |
| Risk.Reprioritize | web/compliance/engine.py:245-251 | The record gets exploitability twice the severity and the given business impact, and is then reassessed against its own asset |
| Risk.PriorRow | web/compliance/engine.py:240-243 | `get_or_create` on the prioritization table: the stored row when there is one, otherwise a new row with the defaults pointing at the vulnerability's asset |
| Risk.Rescored | web/compliance/engine.py:245-251 | The row keeps its key and asset key. Exploitability becomes twice the severity and impact the given score. Three times the risk is the sum of the asset key's criticality, exploitability and impact, and the priority matches the risk. Effort and SLA are kept |
| Risk.Step | web/compliance/engine.py:238-251 | One iteration on the tables keeps them well-formed: each row sits under its own key, and its asset key has a criticality row. What the iteration computes is stated by StepScores, StepPreservesScored, StepRemediationKept and StepKeepsScored |
| Risk.Run | web/compliance/engine.py:233-251 | The loop over the vulnerability table, skipping vulnerabilities outside the organisation, keeps the tables well-formed. The Run lemmas below state what it computes |
| Risk.StepScores | web/compliance/engine.py:238-251 | One pass of the loop scores its vulnerability against the current inventory and keeps every row pointing at its own asset |
| Risk.StepPreservesScored | web/compliance/engine.py:237-251 | A pass for one vulnerability never disturbs another vulnerability's score |
| Risk.StepRemediationKept | web/compliance/engine.py:240-251 | A pass keeps the effort and SLA of an existing row, and a created row gets the defaults |
| Risk.StepKeepsScored | web/compliance/engine.py:237-251 | A pass over an already scored vulnerability changes nothing |
| Risk.RunConsistent | web/compliance/engine.py:237-251 | The loop keeps every prioritization row pointing at its own vulnerability's asset |
| Risk.RunScores | web/compliance/engine.py:237-251 | After the loop, every processed vulnerability of the organisation has its asset's criticality recomputed and its risk scored against it |
| Risk.RunKeys | web/compliance/engine.py:237-243 | The loop creates a prioritization row for each vulnerability of the organisation and for no other |
| Risk.RunKeepsOthers | web/compliance/engine.py:233-237 | Rows of vulnerabilities outside the organisation are left exactly as they were |
| Risk.RunKeepsOtherAssets | web/compliance/engine.py:233-238 | The criticality row of a subdomain that no organisation vulnerability of the loop points at is left exactly as it was, and none is created for it |
| Risk.RunRemediationKept | web/compliance/engine.py:240-251 | No row is deleted, existing rows keep their effort and SLA, and new rows get the defaults |
| Risk.RunFixed | web/compliance/engine.py:237-251 | The loop leaves tables unchanged when every vulnerability it reaches is already scored |
| Risk.RunIdempotent | web/compliance/engine.py:229-251 | Running the prioritization a second time over the same inventory changes nothing |
| Risk.RowsMembership | web/compliance/engine.py:253-255 | A reordering of the organisation's rows has one row per vulnerability and holds each vulnerability's row and no other |
| Risk.RiskEngine.CalculateAssetCriticality | web/compliance/engine.py:200-227 | The asset's criticality record is fetched or created, recomputed from the inventory and saved. The returned record equals the saved row, and nothing else in the tables changes |
| Risk.RiskEngine.SavePrioritization | web/compliance/engine.py:240-251 | Only the vulnerability's row changes. It is fetched, or created pointing at the asset, then rescored with the given business impact |
| Risk.RiskEngine.PrioritizeVulnerability | web/compliance/engine.py:238-251 | One loop iteration changes the tables exactly as `Step` |
| Risk.RiskEngine.PrioritizeVulnerabilities | web/compliance/engine.py:229-255 | The tables become `Run` of the old tables over every vulnerability. The result is sorted by falling risk, has one row per vulnerability of the organisation, and holds exactly those rows |
| Risk.RiskEngine.RowsOf | web/compliance/engine.py:253-254 | The stored rows of the given vulnerabilities, one per vulnerability, in order |
| Risk.RiskEngine.RankedRows | web/compliance/engine.py:253-255 | The organisation's rows, sorted by falling risk, one per vulnerability of the organisation and no other |

## Left out

- The `created_by` foreign key of `ComplianceReport` is not modelled. The column is NOT NULL (web/dashboard/models.py:116), and the `get_or_create` call at web/compliance/engine.py:29-34 passes no value for it. So the source as written fails with a database integrity error whenever no draft exists yet, unless something outside the core sets the field. Compliance.ComplianceEngine.RunComplianceCheck instead models the intended behaviour: the new draft is created and the check succeeds.
- Timestamps (`generated_date`, `assessed_date`, `calculated_date`) and `save()` as a database write are not modelled. Saving is the assignment of the record's fields to its table row.
- `get_or_create` races and `MultipleObjectsReturned` are not modelled. The report table invariant allows at most one draft per organisation and framework, and the risk tables are maps keyed by their one-to-one keys.
- Dashboard.AssetCriticality.CalculateCriticality: `business_value` and `data_sensitivity` are integer columns. The model keeps the reals computed in memory, as the scores are computed before any reload, and does not model truncation on a later read.
- Floating-point rounding is not modelled: scores are exact reals. The ISO 80% test compares against the exact real 0.8. The double nearest 0.8 never moves the comparison across a whole count, so the outcome is the same.
- Case-insensitive matching (`icontains`, and `lower()` on technology names) folds ASCII letters only. The model agrees with the source when the organisation name and the matched text are ASCII. The organisation name is the `icontains` needle of every organisation filter and is arbitrary caller text. Outside ASCII the model and a Unicode-aware database can differ in both directions:
  - Non-ASCII letters such as "É" are not folded, so "É" and "é" do not match.
  - Some non-ASCII letters fold onto ASCII ones in the database. PostgreSQL upper-cases the dotless "ı" to "I", so "admın" matches "admin" there but not in the model.
  - Python's `str.lower()` is applied only to technology names. It maps exactly one non-ASCII character onto an ASCII letter: the Kelvin sign "K" becomes "k". None of the five sensitive names contains "k", so for the technology test the model agrees with the source on all input.
- The regular expression `card|payment|cvv` is modelled as three substring tests, which is what the alternation matches.
- The `card_keywords` list of the PCI DSS check is never used by the code, so it is not modelled.
- The platform's inventory models (`startScan`, `targetApp`) are not part of this model. Only the fields the core reads are modelled, and NULL text columns read as the empty string.
- The language-model, graph, machine-learning, signal and command-line modules are not part of this model, and neither are the other dashboard models.
- The asset-criticality scores follow the code, which caps them at 10 with `min(10, …)` and has no lower clamp. AssetCriticalityBounds states the lower bound 0 only for severities of at least -1.
- Risk.RunScores: the lemmas assume that the stored prioritization rows of the inventory's vulnerabilities point at the vulnerability's own asset, which `Consistent` states and the loop preserves. A row whose asset key points elsewhere is rescored against that other asset, as in the code, but the lemmas do not describe that case.
- Risk.SortByRiskDescending: the database's order among rows of equal risk is unspecified. The model states that the result is sorted and a permutation, and does not fix the order of ties.
