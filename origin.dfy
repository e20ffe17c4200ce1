/**
 * The cross-domain check that both the edge middleware and the comment
 * handler apply: plain substring containment of the configured domain in the
 * `origin` or `referer` header, with no origin parsing at all.
 */
module Origin {
  import opened Wrappers
  import opened Strings

  /** `(h && h.includes(domain))` read as a boolean: a missing or empty header mentions nothing. */
  predicate HeaderMentions(h: Option<string>, domain: string) {
    Truthy(h) && Contains(h.value, domain)
  }

  /**
   * `isAllowed` for a configured (non-empty) domain: the origin header or
   * the referer header contains it. An absent or empty header counts as not
   * containing it.
   */
  function IsAllowed(domain: string, origin: Option<string>, referer: Option<string>): (ok: bool)
    requires domain != ""
    ensures ok <==> ((origin.Some? && Contains(origin.value, domain))
                  || (referer.Some? && Contains(referer.value, domain)))
  {
    EmptyContainsOnlyEmpty(domain);
    HeaderMentions(origin, domain) || HeaderMentions(referer, domain)
  }

  /**
   * The whole guard: `ALLOWED_DOMAIN` unset or empty means open mode and
   * every request passes; otherwise the request passes exactly when
   * `IsAllowed` holds.
   */
  function GuardPasses(allowedDomain: Option<string>, origin: Option<string>, referer: Option<string>): (ok: bool)
    ensures !Truthy(allowedDomain) ==> ok
    ensures Truthy(allowedDomain) ==>
      (ok <==> ((origin.Some? && Contains(origin.value, allowedDomain.value))
             || (referer.Some? && Contains(referer.value, allowedDomain.value))))
  {
    !Truthy(allowedDomain) || IsAllowed(allowedDomain.value, origin, referer)
  }

  /**
   * The guard is a substring test, not a host comparison: an origin whose
   * host merely embeds the allowed domain (`https://<domain>.attacker.example`)
   * passes.
   */
  lemma EmbeddedDomainPasses(domain: string, before: string, after: string, referer: Option<string>)
    requires domain != ""
    ensures GuardPasses(Some(domain), Some(before + domain + after), referer)
  {
    ContainsInfix(before, domain, after);
  }
}
