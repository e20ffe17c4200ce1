/** The HTTP responses the endpoints and the middleware produce. */
module Http {
  import opened Wrappers

  /** A response: its status, its body text and, for redirects, the `Location` header. */
  datatype Response = Response(status: nat, body: string, location: Option<string>)

  /** `new Response(body, { status })`: no `Location` header. */
  function Plain(status: nat, body: string): (r: Response)
    ensures r.status == status && r.body == body && r.location.None?
  {
    Response(status, body, None)
  }

  /** Astro's `redirect(to)`: status 302 with `Location: to`, taken verbatim. */
  function Redirect(to: string): (r: Response)
    ensures r.status == 302 && r.location == Some(to) && r.body == ""
  {
    Response(302, "", Some(to))
  }

  /** `JSON.stringify({ message })` for a message holding no quote or backslash. */
  function MessageJson(message: string): (body: string)
    ensures |body| == |message| + 14
    ensures body[..12] == "{\"message\":\"" && body[12..|body| - 2] == message && body[|body| - 2..] == "\"}"
  {
    "{\"message\":\"" + message + "\"}"
  }
}
