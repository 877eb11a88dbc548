/**
 * What the core asks of the public-suffix parser (`parse` from the `tldts`
 * library). The parser itself is not part of this model: callers supply it as
 * a function from a hostname (or a whole URL string) to a `ParsedDomain`.
 */
module Domains {
  import opened Wrappers

  /** The fields of `tldts`'s result that the core reads; `None` is JavaScript `null`. */
  datatype ParsedDomain = ParsedDomain(domain: Option<string>, subdomain: Option<string>, isIcann: bool)

  /** JavaScript truthiness of a string-or-null: present and not empty. */
  predicate Truthy(s: Option<string>) {
    s.Some? && s.value != ""
  }

  /**
   * The validity test of the sanitiser: it refuses a hostname when
   * `!parsed.domain || !parsed.isIcann`, so a hostname passes exactly when
   * there is a non-empty registrable domain under an ICANN suffix.
   */
  predicate DomainIsValid(parsed: ParsedDomain)
    ensures !DomainIsValid(parsed) <==> parsed.domain.None? || parsed.domain.value == "" || !parsed.isIcann
  {
    Truthy(parsed.domain) && parsed.isIcann
  }
}
