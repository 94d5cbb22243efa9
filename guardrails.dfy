/**
 * The deny rules both remediation gates test, over the lowercased action.
 * The gates differ only in where these rules sit relative to the allow rules.
 */
module Guardrails {
  import opened Text

  /** "delete" together with "prod" or "database". */
  predicate DestructiveDelete(t: string)
  {
    Contains(t, "delete") && (Contains(t, "prod") || Contains(t, "database"))
  }

  predicate DropsData(t: string)
  {
    Contains(t, "drop")
  }

  predicate TruncatesData(t: string)
  {
    Contains(t, "truncate")
  }

  /** Some deny rule matches. */
  predicate Denied(t: string)
  {
    DestructiveDelete(t) || DropsData(t) || TruncatesData(t)
  }
}
