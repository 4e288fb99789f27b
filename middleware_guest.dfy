/** The default route middleware of middleware/guest.ts: pages for signed-out visitors (login,
    registration) send a signed-in user on to the page named by the `redirect` query, or home. */
module GuestMiddleware {
  import opened Js
  import opened AuthStore
  import AuthMiddleware

  const HOME_PATH := "/"
  const MALFORMED_URI := "URI malformed"

  /** One run of the guard. `redirect` is `to.query?.redirect`; `decode` is
      `decodeURIComponent` applied to its string form, `None` where it throws. */
  function Guard(server: bool, authenticated: bool, redirect: Value,
                 decode: string -> Option<string>): (r: Outcome<Navigation>)
    ensures server || !authenticated ==> r == Returned(Continue)
    ensures !server && authenticated && !Truthy(redirect) ==> r == Returned(Redirect(HOME_PATH))
    ensures !server && authenticated && Truthy(redirect) ==>
      match decode(ToJsString(redirect))
      case Some(target) => r == Returned(Redirect(target))
      case None => r == Threw(URIError(MALFORMED_URI))
  {
    if server || !authenticated then Returned(Continue)
    else if Truthy(redirect) then
      match decode(ToJsString(redirect))
      case Some(target) => Returned(Redirect(target))
      case None => Threw(URIError(MALFORMED_URI))
    else Returned(Redirect(HOME_PATH))
  }

  /** The two guards never both redirect and never both let a visitor through: for one store,
      exactly one of them sends the visitor elsewhere. */
  lemma GuardsAreComplementary(s: SessionState, fullPath: string, encode: string -> string,
                               profile: Outcome<Value>, redirect: Value, decode: string -> Option<string>)
    ensures var authRun := AuthMiddleware.Guard(false, s, s, fullPath, encode, profile);
      var guestRun := Guard(false, IsAuthenticated(s.token, s.user), redirect, decode);
      authRun.navigation == Continue <==> guestRun != Returned(Continue)
  {
    AuthMiddleware.GuardDecision(s, s, fullPath, encode, profile);
  }

  /** When the `redirect` query holds `encode(path)` and decoding undoes encoding, a signed-in
      visitor is sent to `path`. Query values the router delivers are already decoded once, so
      this holds only for a query that still holds the encoded form. */
  lemma LoginReturnsToRequestedPage(path: string, encode: string -> string, decode: string -> Option<string>)
    requires path != ""
    requires encode(path) != "" && decode(encode(path)) == Some(path)
    ensures Guard(false, true, Str(encode(path)), decode) == Returned(Redirect(path))
  {
  }
}
