/** The findings record every framework check returns: three buckets of findings. */
module ComplianceFindings {

  /** The severity label a finding carries. */
  datatype Severity = Critical | High | Medium

  /** One compliance rule outcome. */
  datatype Finding = Finding(check: string, severity: Severity, description: string, remediation: string)

  /** The `passed`, `failed` and `warnings` buckets of one evaluation. */
  datatype Findings = Findings(passed: seq<Finding>, failed: seq<Finding>, warnings: seq<Finding>)

  /** Some finding in the bucket is about `check`. */
  predicate Reports(bucket: seq<Finding>, check: string)
  {
    exists x :: x in bucket && x.check == check
  }
}
