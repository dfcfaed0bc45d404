/**
 * The request middleware: the only rule left active sends a visitor who already has a
 * session cookie away from the login and signup pages.
 */
module Middleware {
  import opened Wrappers

  /** `PUBLIC_PATHS`. */
  const PublicPaths: seq<string> := ["/login", "/signup"]

  /** `NextResponse.redirect` to a path of the same origin, or `NextResponse.next()`. */
  datatype Response = Redirect(location: string) | Next

  /**
   * `middleware`: `sessionCookie` is the `firebaseIdToken` cookie when the request has
   * one (any cookie counts, whatever its value). A public path with a cookie is
   * redirected home; every other request proceeds.
   */
  function Decide(pathname: string, sessionCookie: Option<string>): (r: Response)
    ensures r.Redirect? <==> (pathname == "/login" || pathname == "/signup") && sessionCookie.Some?
    ensures r.Redirect? ==> r.location == "/"
    ensures r.Next? <==> pathname !in PublicPaths || sessionCookie.None?
  {
    if pathname in PublicPaths && sessionCookie.Some? then Redirect("/") else Next
  }

  /** Without a session cookie every request proceeds: the login requirement is switched off. */
  lemma NoCookieAlwaysProceeds(pathname: string)
    ensures Decide(pathname, None) == Next
  {
  }

  /** Outside the public paths the cookie makes no difference. */
  lemma ProtectedPathsIgnoreCookie(pathname: string, cookie: Option<string>)
    requires pathname !in PublicPaths
    ensures Decide(pathname, cookie) == Decide(pathname, None) == Next
  {
  }

  /** Path membership is exact: a trailing slash or different case is not a public path. */
  lemma PublicPathMatchIsExact(cookie: string)
    ensures Decide("/login", Some(cookie)) == Redirect("/")
    ensures Decide("/login/", Some(cookie)) == Next
    ensures Decide("/Login", Some(cookie)) == Next
  {
  }
}
