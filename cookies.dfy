/**
 * The outgoing cookies of one request (Astro's `cookies` object): every `set`
 * or `delete` replaces the pending `Set-Cookie` entry for that cookie name.
 */
module Cookies {
  import opened Wrappers

  datatype SameSite = Lax | Strict | NoRestriction

  /** The options object passed to `cookies.set` / `cookies.delete`; absent keys are `None`. */
  datatype CookieOptions = CookieOptions(
    path: Option<string>,
    sameSite: Option<SameSite>,
    secure: Option<bool>,
    httpOnly: Option<bool>)

  /** A pending `Set-Cookie`: a new value, or an expiry that deletes the cookie. */
  datatype Outgoing = SetTo(value: string, options: CookieOptions) | Deleted(options: CookieOptions)

  class Jar {
    /** Pending `Set-Cookie` entries, by cookie name. */
    var outgoing: map<string, Outgoing>

    constructor ()
      ensures outgoing == map[]
    {
      outgoing := map[];
    }

    /** `cookies.set(name, value, options)`. */
    method Set(name: string, value: string, options: CookieOptions)
      modifies this
      ensures outgoing == old(outgoing)[name := SetTo(value, options)]
    {
      outgoing := outgoing[name := SetTo(value, options)];
    }

    /** `cookies.delete(name, options)`. */
    method Delete(name: string, options: CookieOptions)
      modifies this
      ensures outgoing == old(outgoing)[name := Deleted(options)]
    {
      outgoing := outgoing[name := Deleted(options)];
    }
  }
}
