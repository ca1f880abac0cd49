/**
 * The route guard that runs before every page it is configured for: signed-in
 * users are kept away from the login and register pages, signed-out users
 * from the game and account pages, and the root is sent to one or the other.
 */
module Middleware {

  /** What the guard answers: let the request through, or redirect it. */
  datatype Decision = Next | Redirect(to: string)

  const HomePath := "/home"
  const LoginPath := "/login"
  const RegisterPath := "/register"
  const RootPath := "/"

  /** The pages that need a signed-in user. */
  const AuthenticatedRoutes: seq<string> :=
    ["/home", "/blackjack", "/dice-roller", "/fortune-apple", "/poker", "/slot-machine", "/profile", "/wallet"]

  /** The pages the guard is configured to run on. */
  const Matcher: seq<string> :=
    ["/", "/home", "/blackjack", "/dice-roller", "/fortune-apple", "/poker", "/slot-machine",
     "/login", "/register", "/profile", "/wallet"]

  predicate IsAuthRoute(path: string)
  {
    path == LoginPath || path == RegisterPath
  }

  /**
   * `middleware`: `hasCookie` says whether the request carries the `user`
   * cookie. Home is where a signed-in user lands from the login, register
   * and root pages; login is where a signed-out user lands from a protected
   * page or the root; every other request goes through.
   */
  function Guard(hasCookie: bool, path: string): (d: Decision)
    ensures d == Redirect(HomePath) <==> hasCookie && (IsAuthRoute(path) || path == RootPath)
    ensures d == Redirect(LoginPath) <==> !hasCookie && (path in AuthenticatedRoutes || path == RootPath)
    ensures d.Redirect? ==> d.to == HomePath || d.to == LoginPath
    ensures d.Redirect? ==> d.to != path
  {
    if hasCookie && IsAuthRoute(path) then Redirect(HomePath)
    else if !hasCookie && path in AuthenticatedRoutes then Redirect(LoginPath)
    else if path == RootPath then
      if hasCookie then Redirect(HomePath) else Redirect(LoginPath)
    else Next
  }

  /** One redirect is enough: the page a redirect leads to is let through. */
  lemma RedirectSettles(hasCookie: bool, path: string)
    ensures Guard(hasCookie, path).Redirect? ==> Guard(hasCookie, Guard(hasCookie, path).to) == Next
  {
    assert HomePath == AuthenticatedRoutes[0];
    assert LoginPath !in AuthenticatedRoutes;
  }

  /**
   * On the configured pages, a signed-in user is let through exactly on the
   * protected pages and a signed-out user exactly on login and register.
   */
  lemma GuardOnMatchedPages(hasCookie: bool, path: string)
    requires path in Matcher
    ensures Guard(hasCookie, path) == Next <==>
      if hasCookie then path in AuthenticatedRoutes else IsAuthRoute(path)
  {
  }
}
