/** `src/middleware.ts`: the guard runs on every path except static assets. */
module SrcMiddleware {

  import opened Common
  import opened RouteGuard

  const ProtectedRoutes: seq<string> := ["/dashboard", "/ficha-cadastral", "/pagamento"]
  const AuthRoutes: seq<string> := ["/login", "/cadastro"]

  predicate EndsWith(s: string, suffix: string) {
    |suffix| <= |s| && s[|s| - |suffix|..] == suffix
  }

  const ImageExtensions: seq<string> := ["svg", "png", "jpg", "jpeg", "gif", "webp"]

  /** `favicon.ico` in the matcher's pattern, where the '.' matches any character. */
  predicate FaviconLike(rest: string) {
    |rest| >= 11 && rest[..7] == "favicon" && rest[8..11] == "ico"
  }

  /** The exclusion `(?!_next/static|_next/image|favicon.ico|.*\.(?:svg|...)$)`
      tested on the path after its leading '/'. */
  predicate Excluded(rest: string) {
    StartsWith(rest, "_next/static") || StartsWith(rest, "_next/image") || FaviconLike(rest)
    || exists e :: e in ImageExtensions && EndsWith(rest, "." + e)
  }

  /** `config.matcher`. */
  predicate Matcher(pathname: string) {
    |pathname| >= 1 && pathname[0] == '/' && !Excluded(pathname[1..])
  }

  /** A text without '.' does not end with a '.' extension. */
  lemma DotlessHasNoExtension(s: string, e: string)
    ensures '.' !in s ==> !EndsWith(s, "." + e)
  {
    if EndsWith(s, "." + e) {
      assert s[|s| - |e| - 1] == ("." + e)[0];
    }
  }

  /** A path rest with no '.', not starting with '_' and not spelling
      `favicon` is not excluded. */
  lemma NotExcluded(rest: string)
    requires |rest| >= 1 && rest[0] != '_' && '.' !in rest
    requires |rest| < 11 || rest[..7] != "favicon"
    ensures !Excluded(rest)
  {
    forall e | e in ImageExtensions
      ensures !EndsWith(rest, "." + e)
    {
      DotlessHasNoExtension(rest, e);
    }
  }

  /** The middleware's effect on a request; a path the matcher skips passes through. */
  function Middleware(pathname: string, signedIn: bool): (d: Decision)
    ensures !Matcher(pathname) ==> d == PassThrough
  {
    if Matcher(pathname) then Guard(ProtectedRoutes, AuthRoutes, pathname, signedIn) else PassThrough
  }

  /** On a path the matcher lets through, the decision is the guard's: the
      login redirect exactly for a signed-out request below a protected
      prefix, the dashboard redirect exactly for a signed-in request below
      an auth prefix, and pass-through otherwise. */
  lemma MatchedPathIsGuarded(pathname: string, signedIn: bool)
    requires Matcher(pathname)
    ensures var d := Middleware(pathname, signedIn);
      && (d == RedirectToLogin(pathname) <==> !signedIn && MatchesAny(ProtectedRoutes, pathname))
      && (d == RedirectToDashboard <==> signedIn && MatchesAny(AuthRoutes, pathname))
      && (d == PassThrough <==> !(!signedIn && MatchesAny(ProtectedRoutes, pathname))
                                && !(signedIn && MatchesAny(AuthRoutes, pathname)))
  {
    GuardCases(ProtectedRoutes, AuthRoutes, pathname, signedIn);
    RouteListsDisjoint(pathname);
  }

  /** No path is both protected and an auth route. */
  lemma RouteListsDisjoint(pathname: string)
    ensures !(MatchesAny(ProtectedRoutes, pathname) && MatchesAny(AuthRoutes, pathname))
  {
    SeparatedDisjoint(ProtectedRoutes, AuthRoutes, pathname);
  }

  /** A signed-out request below a protected prefix is sent to the login page
      carrying its path; a signed-in request is never sent there. */
  lemma ProtectedBelowPrefix(route: string, suffix: string, signedIn: bool)
    requires route in ProtectedRoutes && Matcher(route + suffix)
    ensures !signedIn ==> Middleware(route + suffix, signedIn) == RedirectToLogin(route + suffix)
    ensures signedIn ==> Middleware(route + suffix, signedIn) == PassThrough
  {
    assert StartsWith(route, route);
    MatchesAnyExtends(ProtectedRoutes, route, suffix);
    RouteListsDisjoint(route + suffix);
  }

  /** Static assets never reach the guard: any path below `_next/static`
      or `_next/image`, or ending in an image extension, passes through
      whoever asks for it. */
  lemma AssetsSkipGuard(rest: string, signedIn: bool)
    requires StartsWith(rest, "_next/static") || StartsWith(rest, "_next/image")
             || exists e :: e in ImageExtensions && EndsWith(rest, "." + e)
    ensures Middleware("/" + rest, signedIn) == PassThrough
  {
    assert ("/" + rest)[1..] == rest;
  }

  /** For instance, a logo below `/dashboard` and a bundled script. */
  lemma AssetExamples(signedIn: bool)
    ensures Middleware("/dashboard/logo.png", signedIn) == PassThrough
    ensures Middleware("/_next/static/app.js", signedIn) == PassThrough
  {
    assert "/dashboard/logo.png" == "/" + "dashboard/logo.png";
    assert EndsWith("dashboard/logo.png", "." + "png");
    AssetsSkipGuard("dashboard/logo.png", signedIn);
    assert "/_next/static/app.js" == "/" + "_next/static/app.js";
    assert StartsWith("_next/static/app.js", "_next/static");
    AssetsSkipGuard("_next/static/app.js", signedIn);
  }
}

/** The root `middleware.ts`: the same guard, but the matcher lists five exact paths. */
module RootMiddleware {

  import opened Common
  import opened RouteGuard
  import SrcMiddleware

  const ProtectedRoutes: seq<string> := ["/dashboard", "/pagamento", "/ficha-cadastral"]
  const PublicRoutes: seq<string> := ["/login", "/cadastro"]

  const MatchedPaths: seq<string> := ["/login", "/cadastro", "/dashboard", "/pagamento", "/ficha-cadastral"]

  function Middleware(pathname: string, signedIn: bool): (d: Decision)
    ensures pathname !in MatchedPaths ==> d == PassThrough
  {
    if pathname in MatchedPaths then Guard(ProtectedRoutes, PublicRoutes, pathname, signedIn) else PassThrough
  }

  /** On the five matched paths the decision is the guard's, branch by branch. */
  lemma MatchedPathIsGuarded(pathname: string, signedIn: bool)
    requires pathname in MatchedPaths
    ensures var d := Middleware(pathname, signedIn);
      && (d == RedirectToLogin(pathname) <==> !signedIn && MatchesAny(ProtectedRoutes, pathname))
      && (d == RedirectToDashboard <==> signedIn && MatchesAny(PublicRoutes, pathname))
      && (d == PassThrough <==> !(!signedIn && MatchesAny(ProtectedRoutes, pathname))
                                && !(signedIn && MatchesAny(PublicRoutes, pathname)))
  {
    GuardCases(ProtectedRoutes, PublicRoutes, pathname, signedIn);
    RouteListsSeparated(pathname);
  }

  /** The matcher under `src/` lets each of the five paths through. */
  lemma MatchedPathsReachSrcGuard(pathname: string)
    requires pathname in MatchedPaths
    ensures SrcMiddleware.Matcher(pathname)
  {
    var rest := pathname[1..];
    assert rest in ["login", "cadastro", "dashboard", "pagamento", "ficha-cadastral"];
    assert rest == "ficha-cadastral" ==> rest[..7] == "ficha-c";
    SrcMiddleware.NotExcluded(rest);
  }

  /** On the five paths it sees, the root middleware decides as the one under `src/`. */
  lemma AgreesOnMatchedPaths(pathname: string, signedIn: bool)
    requires pathname in MatchedPaths
    ensures SrcMiddleware.Matcher(pathname)
    ensures Middleware(pathname, signedIn) == SrcMiddleware.Middleware(pathname, signedIn)
  {
    MatchesAnySameRoutes(ProtectedRoutes, SrcMiddleware.ProtectedRoutes, pathname);
    MatchesAnySameRoutes(PublicRoutes, SrcMiddleware.AuthRoutes, pathname);
    MatchedPathsReachSrcGuard(pathname);
  }

  /** A signed-in request for `/login` goes to the dashboard; a signed-out one
      for `/dashboard` goes to the login page with `redirect=/dashboard`. */
  lemma ExactPathDecisions()
    ensures Middleware("/login", true) == RedirectToDashboard
    ensures Middleware("/dashboard", false) == RedirectToLogin("/dashboard")
    ensures Middleware("/dashboard", true) == PassThrough
  {
    assert StartsWith("/login", "/login");
    assert StartsWith("/dashboard", "/dashboard");
    RouteListsSeparated("/login");
    RouteListsSeparated("/dashboard");
  }

  lemma RouteListsSeparated(pathname: string)
    ensures !(MatchesAny(ProtectedRoutes, pathname) && MatchesAny(PublicRoutes, pathname))
  {
    SeparatedDisjoint(ProtectedRoutes, PublicRoutes, pathname);
  }

  /** The two files differ below the protected prefixes: a signed-out request
      for `/dashboard/x` is redirected by one and let through by the other. */
  lemma NestedPathsDiffer()
    ensures SrcMiddleware.Middleware("/dashboard/x", false) == RedirectToLogin("/dashboard/x")
    ensures Middleware("/dashboard/x", false) == PassThrough
  {
    assert "/dashboard/x" == "/dashboard" + "/x";
    var rest := "dashboard/x";
    assert "/dashboard/x"[1..] == rest;
    SrcMiddleware.NotExcluded(rest);
    SrcMiddleware.ProtectedBelowPrefix("/dashboard", "/x", false);
  }
}
