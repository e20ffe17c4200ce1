/**
 * The Keystatic preview-mode endpoints: `start` sets the preview cookie and
 * redirects to the requested page; `end` deletes the cookie and redirects
 * back to the non-preview page the referer came from.
 */
module Preview {
  import opened Wrappers
  import opened Strings
  import opened Http
  import opened Cookies

  const PreviewCookie: string := "keystatic-preview-mode"
  const MissingParamsMessage: string := "Missing branch or to params"

  /** The options `start` sets the cookie with; `secure` follows the production flag. */
  function PreviewCookieOptions(prod: bool): (o: CookieOptions)
    ensures o.path == Some("/") && o.sameSite == Some(Lax) && o.httpOnly == Some(true) && o.secure == Some(prod)
  {
    CookieOptions(Some("/"), Some(Lax), Some(prod), Some(true))
  }

  /** The options `end` deletes the cookie with: only the path. */
  const DeleteOptions: CookieOptions := CookieOptions(Some("/"), None, None, None)

  /**
   * `GET /api/preview/start?branch=…&to=…`: with either parameter missing
   * or empty the answer is 400 and no cookie is touched; otherwise the
   * preview cookie holds the branch and the redirect goes to `to` verbatim.
   * No other cookie changes.
   */
  method Start(cookies: Jar, branch: Option<string>, to: Option<string>, prod: bool) returns (r: Response)
    modifies cookies
    ensures !Truthy(branch) || !Truthy(to) ==>
      r == Plain(400, MissingParamsMessage) && cookies.outgoing == old(cookies.outgoing)
    ensures Truthy(branch) && Truthy(to) ==>
      && r == Redirect(to.value)
      && cookies.outgoing == old(cookies.outgoing)[PreviewCookie := SetTo(branch.value, PreviewCookieOptions(prod))]
  {
    if !Truthy(branch) || !Truthy(to) {
      return Plain(400, MissingParamsMessage);
    }
    cookies.Set(PreviewCookie, branch.value, PreviewCookieOptions(prod));
    r := Redirect(to.value);
  }

  /**
   * Where `end` redirects, given the referer and the pathname `new URL`
   * extracts from it (`None` when the URL constructor throws): "/" unless
   * the referer contains "/preview/", else the referer's pathname with its
   * first "/preview" removed. `None` is the thrown error.
   */
  function EndTarget(referer: Option<string>, urlPathname: string -> Option<string>): (t: Option<string>)
    ensures !Truthy(referer) || !Contains(referer.value, "/preview/") ==> t == Some("/")
    ensures Truthy(referer) && Contains(referer.value, "/preview/") ==>
      (t.None? <==> urlPathname(referer.value).None?)
  {
    if Truthy(referer) && Contains(referer.value, "/preview/") then
      match urlPathname(referer.value)
      case None => None
      case Some(path) => Some(ReplaceFirst(path, "/preview", ""))
    else Some("/")
  }

  /** What `end` does: redirect, or fail with the error the URL constructor threw. */
  datatype EndOutcome = Responded(response: Response) | Threw

  /**
   * `GET /api/preview/end`: the local `redirectTo` starts at "/" and is
   * rewritten from the referer; the preview cookie is then deleted at path
   * "/" and the response redirects to `redirectTo`. A referer that the URL
   * constructor rejects ends the request before the cookie is touched.
   */
  method End(cookies: Jar, referer: Option<string>, urlPathname: string -> Option<string>) returns (r: EndOutcome)
    modifies cookies
    ensures EndTarget(referer, urlPathname).None? ==> r == Threw && cookies.outgoing == old(cookies.outgoing)
    ensures EndTarget(referer, urlPathname).Some? ==>
      && r == Responded(Redirect(EndTarget(referer, urlPathname).value))
      && cookies.outgoing == old(cookies.outgoing)[PreviewCookie := Deleted(DeleteOptions)]
  {
    var redirectTo := "/";
    if Truthy(referer) && Contains(referer.value, "/preview/") {
      var path := urlPathname(referer.value);
      if path.None? {
        return Threw;
      }
      redirectTo := ReplaceFirst(path.value, "/preview", "");
    }
    cookies.Delete(PreviewCookie, DeleteOptions);
    r := Responded(Redirect(redirectTo));
  }

  /** A preview pathname loses its leading "/preview": `/preview/blog/slug` goes to `/blog/slug`. */
  lemma PreviewPathStripped(referer: string, urlPathname: string -> Option<string>, path: string)
    requires Contains(referer, "/preview/")
    requires urlPathname(referer) == Some(path)
    requires StartsWith(path, "/preview")
    ensures EndTarget(Some(referer), urlPathname) == Some(path[8..])
  {
    ReplacePrefix(path, "/preview");
  }

  /** The worked example from the comment in end.ts. */
  lemma BlogSlugExample(referer: string, urlPathname: string -> Option<string>)
    requires Contains(referer, "/preview/")
    requires urlPathname(referer) == Some("/preview/blog/slug")
    ensures EndTarget(Some(referer), urlPathname) == Some("/blog/slug")
  {
    PreviewPathStripped(referer, urlPathname, "/preview/blog/slug");
  }

  /**
   * In general the first "/preview" of the pathname is cut out and the text
   * on either side of it joined, wherever in the path it sits.
   */
  lemma FirstPreviewRemoved(referer: string, urlPathname: string -> Option<string>, path: string, i: nat)
    requires Contains(referer, "/preview/")
    requires urlPathname(referer) == Some(path)
    requires IndexOf(path, "/preview") == Some(i)
    ensures EndTarget(Some(referer), urlPathname) == Some(path[..i] + path[i + 8..])
  {
    ReplaceFirstKeepsRest(path, "/preview", i);
  }

  /** A "/preview" in the middle of the path goes too: `/a/preview/b` redirects to `/a/b`. */
  lemma MidPathPreviewRemoved(referer: string, urlPathname: string -> Option<string>)
    requires Contains(referer, "/preview/")
    requires urlPathname(referer) == Some("/a/preview/b")
    ensures EndTarget(Some(referer), urlPathname) == Some("/a/b")
  {
    var p := "/a/preview/b";
    assert OccursAt(p, "/preview", 2);
    assert p[0..8][1] == 'a';
    assert p[1..9][0] == 'a';
    FirstPreviewRemoved(referer, urlPathname, p, 2);
    assert p[..2] + p[10..] == "/a/b";
  }

  /**
   * The containment test reads the whole referer but the rewrite only the
   * pathname: when "/preview/" is only in the query, the pathname comes
   * back unchanged.
   */
  lemma QueryOnlyPreviewKeepsPath(referer: string, urlPathname: string -> Option<string>, path: string)
    requires Contains(referer, "/preview/")
    requires urlPathname(referer) == Some(path)
    requires !Contains(path, "/preview")
    ensures EndTarget(Some(referer), urlPathname) == Some(path)
  {
  }

  /**
   * Only the first "/preview" goes, and it need not be a whole path
   * segment: `/previews/preview/a` becomes `s/preview/a`.
   */
  lemma FirstOccurrenceOnly(referer: string, urlPathname: string -> Option<string>)
    requires Contains(referer, "/preview/")
    requires urlPathname(referer) == Some("/previews/preview/a")
    ensures EndTarget(Some(referer), urlPathname) == Some("s/preview/a")
  {
    ReplacePrefix("/previews/preview/a", "/preview");
  }
}
