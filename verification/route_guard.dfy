/** The redirect decision both middleware files make: a signed-out request
    for a protected path goes to `/login` with the path as `redirect`; a
    signed-in request for a login or sign-up path goes to `/dashboard`;
    anything else passes through. Paths are classified by string prefix. */
module RouteGuard {

  import opened Common

  datatype Decision = PassThrough | RedirectToLogin(redirect: string) | RedirectToDashboard

  /** `routes.some(route => pathname.startsWith(route))`. */
  predicate MatchesAny(routes: seq<string>, pathname: string) {
    exists route :: route in routes && StartsWith(pathname, route)
  }

  function Guard(protectedRoutes: seq<string>, authRoutes: seq<string>, pathname: string, signedIn: bool): Decision {
    if MatchesAny(protectedRoutes, pathname) && !signedIn then RedirectToLogin(pathname)
    else if MatchesAny(authRoutes, pathname) && signedIn then RedirectToDashboard
    else PassThrough
  }

  /** Each redirect happens exactly in its case, and a signed-out request is
      never sent to the dashboard nor a signed-in one to the login page. */
  lemma GuardCases(protectedRoutes: seq<string>, authRoutes: seq<string>, pathname: string, signedIn: bool)
    ensures var d := Guard(protectedRoutes, authRoutes, pathname, signedIn);
      && (d.RedirectToLogin? <==> !signedIn && MatchesAny(protectedRoutes, pathname))
      && (d.RedirectToLogin? ==> d.redirect == pathname)
      && (d == RedirectToDashboard <==> signedIn && MatchesAny(authRoutes, pathname))
      && (d == PassThrough <==> !(MatchesAny(protectedRoutes, pathname) && !signedIn)
                                && !(MatchesAny(authRoutes, pathname) && signedIn))
  {
  }

  /** Extending a matched path keeps it matched: everything below a
      protected prefix is protected. */
  lemma MatchesAnyExtends(routes: seq<string>, pathname: string, suffix: string)
    requires MatchesAny(routes, pathname)
    ensures MatchesAny(routes, pathname + suffix)
  {
    var route :| route in routes && StartsWith(pathname, route);
    assert (pathname + suffix)[..|route|] == pathname[..|route|];
  }

  /** Only the set of routes matters, not their order. */
  lemma MatchesAnySameRoutes(a: seq<string>, b: seq<string>, pathname: string)
    requires forall r :: r in a <==> r in b
    ensures MatchesAny(a, pathname) == MatchesAny(b, pathname)
  {
  }

  /** Two route lists in which no route of one starts like a route of the
      other: their first characters after the shared leading '/' differ. */
  predicate Separated(a: seq<string>, b: seq<string>) {
    forall r, s :: r in a && s in b ==> |r| >= 2 && |s| >= 2 && r[1] != s[1]
  }

  /** With separated lists no path is both protected and an auth route, so
      at most one redirect can apply. */
  lemma SeparatedDisjoint(a: seq<string>, b: seq<string>, pathname: string)
    requires Separated(a, b)
    ensures !(MatchesAny(a, pathname) && MatchesAny(b, pathname))
  {
  }
}
