/** The navigation guard of lib/middleware.ts: from the requested path and whether a session
    exists it decides between a redirect to the login view, a redirect to the dashboard, and
    letting the request through. */
module SessionGate {
  import opened Text

  const LoginPath := "/login"
  const SignupPath := "/signup"
  const DashboardPath := "/dashboard"

  /** `protectedRoutes`: views that need a session. */
  const ProtectedRoutes: seq<string> := [DashboardPath]
  /** `authRoutes`: views meant for visitors without a session. */
  const AuthRoutes: seq<string> := [LoginPath, SignupPath]
  /** `config.matcher`: the path patterns the guard is configured for. */
  const Matcher: seq<string> := ["/", "/dashboard/:path*", LoginPath, SignupPath]

  datatype Decision = RedirectTo(target: string) | PassThrough

  /** The per-route test used for protected routes: the route itself or anything below it. */
  predicate UnderRoute(path: string, route: string) {
    path == route || StartsWith(path, route + "/")
  }

  /** `routes.some(route => path === route || path.startsWith(route + "/"))`. */
  function SomeRouteCovers(routes: seq<string>, path: string): (r: bool)
    ensures r <==> exists i :: 0 <= i < |routes| && UnderRoute(path, routes[i])
  {
    if routes == [] then false
    else UnderRoute(path, routes[0]) || SomeRouteCovers(routes[1..], path)
  }

  predicate IsProtected(path: string) {
    SomeRouteCovers(ProtectedRoutes, path)
  }

  /** `authRoutes.includes(path)`: exact membership, no prefix matching. */
  predicate IsAuthRoute(path: string) {
    path in AuthRoutes
  }

  /** `middleware`: the protected-route check comes first, then the auth-route check. */
  function Decide(path: string, hasSession: bool): (d: Decision)
    ensures d == RedirectTo(LoginPath) <==>
              (path == DashboardPath || StartsWith(path, DashboardPath + "/")) && !hasSession
    ensures d == RedirectTo(DashboardPath) <==> (path == LoginPath || path == SignupPath) && hasSession
    ensures d.RedirectTo? ==> d.target == LoginPath || d.target == DashboardPath
  {
    ProtectedIff(path);
    if IsProtected(path) && !hasSession then RedirectTo(LoginPath)
    else if IsAuthRoute(path) && hasSession then RedirectTo(DashboardPath)
    else PassThrough
  }

  /** A path is protected exactly when it is `/dashboard` or lies below `/dashboard/`. */
  lemma ProtectedIff(path: string)
    ensures IsProtected(path) <==> path == DashboardPath || StartsWith(path, DashboardPath + "/")
  {
    assert ProtectedRoutes[0] == DashboardPath;
  }

  /** Prefix matching respects the segment boundary; auth routes match exactly. */
  lemma SegmentBoundaries()
    ensures !IsProtected("/dashboardx")
    ensures IsProtected("/dashboard/notes")
    ensures !IsAuthRoute("/login/x") && !IsAuthRoute("/")
  {
    ProtectedIff("/dashboardx");
    assert ("/dashboardx")[10] != (DashboardPath + "/")[10];
    ProtectedIff("/dashboard/notes");
    assert ("/dashboard/notes")[..|DashboardPath + "/"|] == DashboardPath + "/";
  }

  /** All combinations not covered by the two redirect rules pass through. */
  lemma OthersPassThrough(path: string, hasSession: bool)
    ensures Decide(path, hasSession) == PassThrough <==>
              (hasSession || !IsProtected(path)) && (!hasSession || !IsAuthRoute(path))
    ensures Decide("/", hasSession) == PassThrough
    ensures IsProtected(path) && hasSession ==> Decide(path, hasSession) == PassThrough
    ensures IsAuthRoute(path) && !hasSession ==> Decide(path, hasSession) == PassThrough
  {
    ProtectedIff(path);
    ProtectedIff("/");
  }

  /** The two route sets are disjoint, so at most one redirect rule can apply to a path. */
  lemma RouteSetsDisjoint(path: string)
    ensures !(IsProtected(path) && IsAuthRoute(path))
  {
    ProtectedIff(path);
    if path == LoginPath || path == SignupPath {
      assert path[1] != DashboardPath[1];
    }
  }

  /** No redirect loop: the target of a redirect is let through in the same session state. */
  lemma NoRedirectLoop(path: string, hasSession: bool)
    ensures Decide(path, hasSession).RedirectTo? ==>
              Decide(Decide(path, hasSession).target, hasSession) == PassThrough
  {
    RouteSetsDisjoint(LoginPath);
    RouteSetsDisjoint(DashboardPath);
    ProtectedIff(DashboardPath);
  }

  /** One `config.matcher` pattern, in the `path-to-regexp` reading used by the framework:
      a trailing `/:path*` matches the stem itself or the stem followed by further segments;
      any other pattern matches one path exactly. */
  predicate PatternMatches(pattern: string, path: string) {
    var wild := "/:path*";
    if |wild| <= |pattern| && pattern[|pattern| - |wild|..] == wild
    then UnderRoute(path, pattern[..|pattern| - |wild|])
    else path == pattern
  }

  predicate GuardConfigured(path: string) {
    exists i :: 0 <= i < |Matcher| && PatternMatches(Matcher[i], path)
  }

  /** The wildcard pattern of the matcher covers `/dashboard` and everything below it. */
  lemma WildcardPattern(path: string)
    ensures PatternMatches(Matcher[1], path) <==> UnderRoute(path, DashboardPath)
  {
    var p := Matcher[1];
    assert p[|p| - 7..] == "/:path*";
    assert p[..|p| - 7] == DashboardPath;
  }

  /** The other three patterns of the matcher are literal paths. */
  lemma LiteralPatterns(path: string)
    ensures PatternMatches(Matcher[0], path) <==> path == "/"
    ensures PatternMatches(Matcher[2], path) <==> path == LoginPath
    ensures PatternMatches(Matcher[3], path) <==> path == SignupPath
  {
    assert Matcher[3][1] != '/';
  }

  /** The guard is configured for exactly `/` and the paths on which some session state leads
      to a redirect: every redirect the decision can make lies inside the matcher, and the
      matcher adds only the landing page. */
  lemma MatcherCoversRedirects(path: string)
    ensures GuardConfigured(path) <==>
              path == "/" || Decide(path, false).RedirectTo? || Decide(path, true).RedirectTo?
  {
    WildcardPattern(path);
    LiteralPatterns(path);
    var listed := path == "/" || UnderRoute(path, DashboardPath) || path == LoginPath || path == SignupPath;
    if GuardConfigured(path) {
      var i :| 0 <= i < |Matcher| && PatternMatches(Matcher[i], path);
      assert i == 0 || i == 1 || i == 2 || i == 3;
    } else {
      assert !PatternMatches(Matcher[0], path) && !PatternMatches(Matcher[1], path);
      assert !PatternMatches(Matcher[2], path) && !PatternMatches(Matcher[3], path);
    }
    assert GuardConfigured(path) <==> listed;
  }
}
