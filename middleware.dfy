/** The edge middleware (`onRequest`) in front of every Astro Action. */
module Middleware {
  import opened Wrappers
  import opened Strings
  import opened Http
  import Origin

  /** The literal path prefix the middleware guards. */
  const ActionsPrefix: string := "/_astro/actions"

  /** What `onRequest` does: hand the request to `next()` unchanged, or answer itself. */
  datatype EdgeResult = Next | Blocked(response: Response)

  /**
   * `onRequest`: a request under the actions prefix whose headers fail the
   * origin guard is answered with 403 "Unauthorized origin" and never reaches
   * `next()`; every other request gets exactly `next()`'s response.
   */
  function OnRequest(pathname: string, allowedDomain: Option<string>,
                     origin: Option<string>, referer: Option<string>): (r: EdgeResult)
    ensures !StartsWith(pathname, ActionsPrefix) ==> r == Next
    ensures !Truthy(allowedDomain) ==> r == Next
    ensures r.Blocked? ==> r.response == Plain(403, "Unauthorized origin")
    ensures r == Next <==> (!StartsWith(pathname, ActionsPrefix)
                          || Origin.GuardPasses(allowedDomain, origin, referer))
  {
    if StartsWith(pathname, ActionsPrefix) && !Origin.GuardPasses(allowedDomain, origin, referer)
    then Blocked(Plain(403, "Unauthorized origin"))
    else Next
  }

  /**
   * The prefix test is literal: a path that merely contains the actions
   * path further in, such as `/x/_astro/actions/addComment`, is not guarded.
   */
  lemma PrefixIsLiteral(allowedDomain: Option<string>, origin: Option<string>, referer: Option<string>)
    ensures OnRequest("/x/_astro/actions/addComment", allowedDomain, origin, referer) == Next
  {
    var p := "/x/_astro/actions/addComment";
    assert p[1] != ActionsPrefix[1];
  }
}
