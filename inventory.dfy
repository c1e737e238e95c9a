/**
 * The organisation's inventory snapshot that the scoring core reads: domains
 * (grouped into projects, with their last scan date), the subdomains discovered
 * under them and the vulnerabilities found on those subdomains.  The database
 * tables become sequences of records; a query filter becomes `Filter`.
 */
module Inventory {
  import opened Wrappers
  import opened Text

  type DomainId = nat
  type SubdomainId = nat
  type VulnerabilityId = nat

  /** A point in time, in seconds. */
  type Instant = int

  const SecondsPerDay: int := 86400

  /** A target domain; `startScanDate` is a nullable column. */
  datatype Domain = Domain(id: DomainId, projectName: string, startScanDate: Option<Instant>)

  /** A discovered subdomain with its HTTP exposure attributes (a NULL text column reads as ""). */
  datatype Subdomain = Subdomain(
    id: SubdomainId,
    domain: DomainId,
    httpUrl: string,
    pageTitle: string,
    contentType: string,
    technologies: seq<string>,
    endpointCount: nat)

  /** A vulnerability, with its own target domain and the subdomain it was found on. */
  datatype Vulnerability = Vulnerability(
    id: VulnerabilityId,
    domain: DomainId,
    subdomain: SubdomainId,
    severity: int)

  datatype Inventory = Inventory(
    domains: seq<Domain>,
    subdomains: seq<Subdomain>,
    vulnerabilities: seq<Vulnerability>)
  {
    /**
     * What the database guarantees: primary keys are unique and every
     * vulnerability's subdomain foreign key points at an existing row.
     */
    ghost predicate Valid()
    {
      && (forall i, j :: 0 <= i < j < |subdomains| ==> subdomains[i].id != subdomains[j].id)
      && DistinctIds(vulnerabilities)
      && (forall v :: v in vulnerabilities ==> exists s :: s in subdomains && s.id == v.subdomain)
    }
  }

  /** No two vulnerabilities in `vs` share a primary key. */
  predicate DistinctIds(vs: seq<Vulnerability>)
  {
    forall i, j :: 0 <= i < j < |vs| ==> vs[i].id != vs[j].id
  }

  /** The rows of `s` that satisfy `p`, in order (a query filter). */
  function Filter<T(!new)>(s: seq<T>, p: T -> bool): (r: seq<T>)
    ensures forall x :: x in r <==> x in s && p(x)
    ensures |r| <= |s|
  {
    if s == [] then []
    else
      assert s == [s[0]] + s[1..];
      (if p(s[0]) then [s[0]] else []) + Filter(s[1..], p)
  }

  /** A filter keeps every qualifying row as often as it occurs, and nothing else. */
  lemma {:induction false} FilterMultiset<T(!new)>(s: seq<T>, p: T -> bool)
    ensures forall x :: multiset(Filter(s, p))[x] == if p(x) then multiset(s)[x] else 0
  {
    if s != [] {
      FilterMultiset(s[1..], p);
      assert s == [s[0]] + s[1..];
    }
  }

  /** A filter yields some row exactly when some row qualifies. */
  lemma FilterNonEmpty<T(!new)>(s: seq<T>, p: T -> bool)
    ensures |Filter(s, p)| > 0 <==> exists x :: x in s && p(x)
  {
    var r := Filter(s, p);
    if |r| > 0 {
      assert r[0] in r;
    }
  }

  /** A filter every row passes returns the whole table. */
  lemma {:induction false} FilterAll<T(!new)>(s: seq<T>, p: T -> bool)
    requires forall x :: x in s ==> p(x)
    ensures Filter(s, p) == s
  {
    if s != [] {
      assert forall x :: x in s[1..] ==> x in s;
      FilterAll(s[1..], p);
      assert s == [s[0]] + s[1..];
    }
  }

  /** The organisation filter `project__name__icontains=organization`. */
  predicate DomainInOrg(d: Domain, org: string)
  {
    ContainsIgnoreCase(d.projectName, org)
  }

  /** The row's target domain belongs to the organisation (a join on the domain table). */
  predicate InOrg(inv: Inventory, domain: DomainId, org: string)
  {
    exists d :: d in inv.domains && d.id == domain && DomainInOrg(d, org)
  }

  /** The organisation's domains (`Domain.objects.filter(project__name__icontains=org)`). */
  function OrgDomains(inv: Inventory, org: string): (r: seq<Domain>)
    ensures forall d :: d in r <==> d in inv.domains && DomainInOrg(d, org)
    ensures |r| <= |inv.domains|
  {
    Filter(inv.domains, (d: Domain) => DomainInOrg(d, org))
  }

  /** An empty organisation name is contained in every project name, so it selects every domain. */
  lemma EmptyOrganisationSelectsAll(inv: Inventory)
    ensures OrgDomains(inv, "") == inv.domains
  {
    forall d | d in inv.domains
      ensures DomainInOrg(d, "")
    {
      ContainsEmpty(d.projectName);
    }
    FilterAll(inv.domains, (d: Domain) => DomainInOrg(d, ""));
  }

  /** The subdomains whose target domain is one of the organisation's. */
  function OrgSubdomains(inv: Inventory, org: string): (r: seq<Subdomain>)
    ensures forall s :: s in r <==> s in inv.subdomains && InOrg(inv, s.domain, org)
    ensures |r| <= |inv.subdomains|
  {
    Filter(inv.subdomains, (s: Subdomain) => InOrg(inv, s.domain, org))
  }

  /** The vulnerabilities whose target domain is one of the organisation's. */
  function OrgVulnerabilities(inv: Inventory, org: string): (r: seq<Vulnerability>)
    ensures forall v :: v in r <==> v in inv.vulnerabilities && InOrg(inv, v.domain, org)
    ensures |r| <= |inv.vulnerabilities|
  {
    Filter(inv.vulnerabilities, (v: Vulnerability) => InOrg(inv, v.domain, org))
  }

  /** The first row with the given primary key, if any. */
  function FindSubdomain(subdomains: seq<Subdomain>, id: SubdomainId): (r: Option<Subdomain>)
    ensures r.Some? ==> r.value in subdomains && r.value.id == id
    ensures r.None? <==> forall s :: s in subdomains ==> s.id != id
  {
    if subdomains == [] then None
    else if subdomains[0].id == id then Some(subdomains[0])
    else FindSubdomain(subdomains[1..], id)
  }

  /** The subdomain a vulnerability was found on (the `vuln.subdomain` foreign key). */
  function SubdomainOf(inv: Inventory, v: Vulnerability): (s: Subdomain)
    requires inv.Valid() && v in inv.vulnerabilities
    ensures s in inv.subdomains && s.id == v.subdomain
  {
    FindSubdomain(inv.subdomains, v.subdomain).value
  }

  /** A vulnerability is determined by its id. */
  lemma VulnerabilityIdUnique(inv: Inventory, v: Vulnerability)
    requires inv.Valid() && v in inv.vulnerabilities
    ensures forall w :: w in inv.vulnerabilities && w.id == v.id ==> w == v
  {
    forall w | w in inv.vulnerabilities && w.id == v.id
      ensures w == v
    {
      var i :| 0 <= i < |inv.vulnerabilities| && inv.vulnerabilities[i] == v;
      var j :| 0 <= j < |inv.vulnerabilities| && inv.vulnerabilities[j] == w;
      assert !(i < j) && !(j < i);
    }
  }

  /** The severities of the vulnerabilities in `vulns` found on subdomain `id`, in order. */
  function Severities(vulns: seq<Vulnerability>, id: SubdomainId): (r: seq<int>)
    ensures |r| <= |vulns|
  {
    if vulns == [] then []
    else
      var rest := Severities(vulns[1..], id);
      if vulns[0].subdomain == id then [vulns[0].severity] + rest else rest
  }

  /** Exactly the severities of the subdomain's vulnerabilities are collected. */
  lemma {:induction false} SeveritiesMembers(vulns: seq<Vulnerability>, id: SubdomainId)
    ensures forall x :: x in Severities(vulns, id) ==> exists v :: v in vulns && v.subdomain == id && v.severity == x
    ensures forall v :: v in vulns && v.subdomain == id ==> v.severity in Severities(vulns, id)
  {
    if vulns != [] {
      SeveritiesMembers(vulns[1..], id);
      assert forall v :: v in vulns[1..] ==> v in vulns;
      assert vulns == [vulns[0]] + vulns[1..];
    }
  }

  /** The vulnerability was found on subdomain `id`. */
  function OnSubdomain(id: SubdomainId): Vulnerability -> bool
  {
    (v: Vulnerability) => v.subdomain == id
  }

  /**
   * One severity per vulnerability found on the subdomain, in table order:
   * entry `i` is the severity of the `i`-th such vulnerability.
   */
  lemma {:induction false} SeveritiesPerVulnerability(vulns: seq<Vulnerability>, id: SubdomainId)
    ensures |Severities(vulns, id)| == |Filter(vulns, OnSubdomain(id))|
    ensures forall i :: 0 <= i < |Severities(vulns, id)| ==>
              Severities(vulns, id)[i] == Filter(vulns, OnSubdomain(id))[i].severity
  {
    if vulns != [] {
      SeveritiesPerVulnerability(vulns[1..], id);
      assert vulns == [vulns[0]] + vulns[1..];
      assert Filter(vulns, OnSubdomain(id)) ==
             (if vulns[0].subdomain == id then [vulns[0]] else []) + Filter(vulns[1..], OnSubdomain(id));
    }
  }

  /** The severities of a subdomain's vulnerabilities (`subdomain.get_vulnerabilities`), one per vulnerability. */
  function SeveritiesOf(inv: Inventory, id: SubdomainId): (r: seq<int>)
    ensures |r| == |Filter(inv.vulnerabilities, OnSubdomain(id))|
    ensures forall v :: v in inv.vulnerabilities && v.subdomain == id ==> v.severity in r
  {
    SeveritiesPerVulnerability(inv.vulnerabilities, id);
    SeveritiesMembers(inv.vulnerabilities, id);
    Severities(inv.vulnerabilities, id)
  }
}
