/** Tenant (app/models/tenant.rb): the isolation boundary, identified by a
    subdomain that is normalised before it is validated. */
module Tenants {
  import opened RubyString
  import opened Validation

  /** `/\A[a-z0-9-]+\z/` */
  predicate MatchesSubdomainFormat(s: string) {
    |s| > 0 && forall i :: 0 <= i < |s| ==> ('a' <= s[i] <= 'z') || ('0' <= s[i] <= '9') || s[i] == '-'
  }

  /** The format validation's own message. */
  const SUBDOMAIN_FORMAT_MESSAGE: string := "only allows lowercase letters, numbers, and hyphens"

  /** `uniqueness: { case_sensitive: false }` against the other tenants' subdomains. */
  predicate SubdomainTaken(subdomain: string, taken: seq<string>) {
    exists t :: t in taken && Downcase(t) == Downcase(subdomain)
  }

  function NameErrors(name: string): (r: seq<FieldError>)
    ensures r == [] <==> IsPresent(name) && 2 <= |name| <= 100
  {
    Presence("name", name) + LengthBetween("name", name, 2, 100)
  }

  /** presence, then uniqueness, then format, as declared. */
  function SubdomainErrors(subdomain: string, taken: seq<string>): (r: seq<FieldError>)
    ensures r == [] <==> MatchesSubdomainFormat(subdomain) && !SubdomainTaken(subdomain, taken)
    ensures !MatchesSubdomainFormat(subdomain) ==> FieldError("subdomain", Custom(SUBDOMAIN_FORMAT_MESSAGE)) in r
  {
    assert MatchesSubdomainFormat(subdomain) ==> !IsSpace(subdomain[0]);
    Presence("subdomain", subdomain)
      + (if SubdomainTaken(subdomain, taken) then [FieldError("subdomain", Taken)] else [])
      + (if MatchesSubdomainFormat(subdomain) then [] else [FieldError("subdomain", Custom(SUBDOMAIN_FORMAT_MESSAGE))])
  }

  /** What validation sees after the callback: a subdomain is accepted iff its
      downcased, stripped form is a non-empty run of [a-z0-9-] no other tenant
      has; a blank one never is. */
  lemma NormalizedSubdomainAccepted(subdomain: string, taken: seq<string>)
    ensures SubdomainErrors(Normalize(subdomain), taken) == [] <==>
      && IsPresent(subdomain)
      && MatchesSubdomainFormat(Strip(Downcase(subdomain)))
      && !SubdomainTaken(Strip(Downcase(subdomain)), taken)
  {
    if IsBlank(subdomain) {
      assert |subdomain| > 0 ==> IsSpace(subdomain[0]);
    }
  }

  /** Subdomains are pairwise different once case is ignored. */
  predicate DistinctSubdomains(subdomains: seq<string>) {
    forall i, j :: 0 <= i < j < |subdomains| ==> Downcase(subdomains[i]) != Downcase(subdomains[j])
  }

  /** Saving only tenants that pass validation keeps subdomains case-insensitively unique. */
  lemma InsertKeepsDistinct(subdomains: seq<string>, s: string)
    requires DistinctSubdomains(subdomains)
    requires SubdomainErrors(s, subdomains) == []
    ensures DistinctSubdomains(subdomains + [s])
  {
    var all := subdomains + [s];
    forall i, j | 0 <= i < j < |all| ensures Downcase(all[i]) != Downcase(all[j]) {
      if j == |subdomains| {
        assert all[i] in subdomains;
      }
    }
  }

  class Tenant {
    var name: string
    var subdomain: string
    var active: bool

    constructor (name: string, subdomain: string, active: bool)
      ensures this.name == name && this.subdomain == subdomain && this.active == active
    {
      this.name := name;
      this.subdomain := subdomain;
      this.active := active;
    }

    /** The `normalize_subdomain` callback. */
    method NormalizeSubdomain()
      modifies this`subdomain
      ensures subdomain == Normalize(old(subdomain))
    {
      if IsPresent(subdomain) {
        subdomain := Strip(Downcase(subdomain));
      }
    }

    function Errors(taken: seq<string>): (r: seq<FieldError>)
      reads this
      ensures r == [] <==>
        IsPresent(name) && 2 <= |name| <= 100
        && MatchesSubdomainFormat(subdomain) && !SubdomainTaken(subdomain, taken)
    {
      NameErrors(name) + SubdomainErrors(subdomain, taken)
    }

    /** `valid?`: the `before_validation` callback, then the validations. */
    method Validate(taken: seq<string>) returns (errors: seq<FieldError>)
      modifies this`subdomain
      ensures subdomain == Normalize(old(subdomain))
      ensures errors == Errors(taken)
    {
      NormalizeSubdomain();
      errors := NameErrors(name) + SubdomainErrors(subdomain, taken);
    }
  }

  /** The `active` scope. */
  function ActiveTenants(tenants: seq<Tenant>): (r: seq<Tenant>)
    reads tenants
    ensures forall i :: 0 <= i < |r| ==> r[i] in tenants && r[i].active
    ensures forall i :: 0 <= i < |tenants| && tenants[i].active ==> tenants[i] in r
    ensures forall t :: t in tenants ==> multiset(r)[t] == (if t.active then multiset(tenants)[t] else 0)
  {
    if tenants == [] then []
    else
      var rest := ActiveTenants(tenants[..|tenants| - 1]);
      var last := tenants[|tenants| - 1];
      assert tenants == tenants[..|tenants| - 1] + [last];
      if last.active then rest + [last] else rest
  }
}
