/** Role-based routing: the edge middleware that guards `/admin` and
    `/dashboard` (src/middleware.ts) and the landing page's redirect
    (src/app/page.tsx). */
module Access {
  import opened Common

  /** The part of the session token the middleware reads; `role` is absent
      when the token carries none. */
  datatype Token = Token(role: Option<string>)

  /** `NextResponse.next()` or `NextResponse.redirect(new URL(target, ...))`. */
  datatype Decision = Next | Redirect(target: string)

  const SignInPath := "/auth/signin"
  const DashboardPath := "/dashboard"
  const AdminPath := "/admin"

  /** `token?.role === role`. */
  predicate HasRole(token: Option<Token>, role: string) {
    token.Some? && token.value.role == Some(role)
  }

  predicate Admitted(token: Option<Token>, pathname: string) {
    && token.Some?
    && (HasRole(token, "ADMIN")
        || (!StartsWith(pathname, AdminPath)
            && (HasRole(token, "EMPLOYEE") || !StartsWith(pathname, DashboardPath))))
  }

  /** The middleware's decision for one request. */
  function Middleware(token: Option<Token>, pathname: string): (d: Decision)
    ensures token.None? ==> d == Redirect(SignInPath)
    ensures HasRole(token, "ADMIN") ==> d == Next
    ensures (token.Some? && !HasRole(token, "ADMIN") && StartsWith(pathname, AdminPath)) ==>
              d == Redirect(DashboardPath)
    ensures (token.Some? && StartsWith(pathname, DashboardPath) && HasRole(token, "EMPLOYEE")) ==>
              d == Next
    ensures (token.Some? && StartsWith(pathname, DashboardPath)
             && !HasRole(token, "ADMIN") && !HasRole(token, "EMPLOYEE")) ==>
              d == Redirect(SignInPath)
    ensures d == Next || d == Redirect(SignInPath) || d == Redirect(DashboardPath)
    ensures d == Next <==> Admitted(token, pathname)
  {
    DashboardIsNotAdmin(pathname);
    var isAdmin := HasRole(token, "ADMIN");
    var isEmployee := HasRole(token, "EMPLOYEE");
    if token.None? then Redirect(SignInPath)
    else if StartsWith(pathname, AdminPath) && !isAdmin then Redirect(DashboardPath)
    else if StartsWith(pathname, DashboardPath) && !isAdmin && !isEmployee then Redirect(SignInPath)
    else Next
  }

  lemma DashboardIsNotAdmin(pathname: string)
    ensures StartsWith(pathname, DashboardPath) ==> !StartsWith(pathname, AdminPath)
  {
    if StartsWith(pathname, DashboardPath) {
      assert pathname[1] == DashboardPath[1];
    }
  }

  /** The decision sees only whether a token is present, its role, and two
      prefix tests on the path. */
  lemma MiddlewareDependsOnlyOnPrefixes(t1: Option<Token>, p1: string, t2: Option<Token>, p2: string)
    requires t1.Some? == t2.Some?
    requires t1.Some? ==> t1.value.role == t2.value.role
    requires StartsWith(p1, AdminPath) == StartsWith(p2, AdminPath)
    requires StartsWith(p1, DashboardPath) == StartsWith(p2, DashboardPath)
    ensures Middleware(t1, p1) == Middleware(t2, p2)
  {
  }

  /** The prefix test is on characters, not on path segments: an employee is
      turned away from "/administrator" just as from "/admin/users". */
  lemma PrefixIsNotASegmentTest()
    ensures Middleware(Some(Token(Some("EMPLOYEE"))), "/administrator") == Redirect(DashboardPath)
    ensures Middleware(Some(Token(Some("VIEWER"))), "/dashboards") == Redirect(SignInPath)
  {
    assert StartsWith("/administrator", AdminPath);
    assert StartsWith("/dashboards", DashboardPath);
  }

  /** The `matcher` config: the middleware runs on "/dashboard/:path*" and
      "/admin/:path*", that is the bare path or the path followed by "/". */
  predicate Matched(pathname: string) {
    || pathname == DashboardPath || StartsWith(pathname, DashboardPath + "/")
    || pathname == AdminPath || StartsWith(pathname, AdminPath + "/")
  }

  /** On the paths the middleware is configured for, a path starts with
      "/admin" exactly when it lies inside the "/admin" tree, and likewise for
      "/dashboard", so the character-prefix test does no harm there. */
  lemma MatchedPrefixIsSegment(pathname: string)
    requires Matched(pathname)
    ensures StartsWith(pathname, AdminPath) <==>
              (pathname == AdminPath || StartsWith(pathname, AdminPath + "/"))
    ensures StartsWith(pathname, DashboardPath) <==>
              (pathname == DashboardPath || StartsWith(pathname, DashboardPath + "/"))
  {
    if StartsWith(pathname, DashboardPath + "/") {
      assert pathname[..|DashboardPath|] == (DashboardPath + "/")[..|DashboardPath|];
    }
    if StartsWith(pathname, AdminPath + "/") {
      assert pathname[..|AdminPath|] == (AdminPath + "/")[..|AdminPath|];
    }
    if StartsWith(pathname, AdminPath) {
      assert pathname[1] == 'a';
    }
    if StartsWith(pathname, DashboardPath) {
      assert pathname[1] == 'd';
    }
  }

  /** The `authorized` callback: `!!token`. */
  function Authorized(token: Option<Token>): bool {
    token.Some?
  }

  /** A request reaches its page only when `authorized` holds, and a request
      `authorized` rejects is one the inner function would send to the
      sign-in page. In the running program `withAuth` applies `authorized`
      first and redirects a rejected request to next-auth's own sign-in
      page, so the inner function's `!token` branch is shadowed by the
      wrapper; the two agree on which requests pass. */
  lemma AuthorizedGuardsMiddleware(token: Option<Token>, pathname: string)
    ensures Middleware(token, pathname) == Next ==> Authorized(token)
    ensures !Authorized(token) ==> Middleware(token, pathname) == Redirect(SignInPath)
  {
  }

  // ---------------------------------------------------------------------
  // Landing page
  // ---------------------------------------------------------------------

  /** The effect on the landing page: None while the session is loading,
      otherwise the one route `router.push` receives. */
  function LandingTarget(status: string, session: Option<SessionUser>): (target: Option<string>)
    ensures status == "loading" ==> target.None?
    ensures status != "loading" ==> target.Some?
    ensures (status != "loading" && session.Some? && session.value.role == "ADMIN") ==>
              target == Some(AdminPath)
    ensures (status != "loading" && session.Some? && session.value.role != "ADMIN") ==>
              target == Some(DashboardPath)
    ensures status != "loading" && session.None? ==> target == Some(SignInPath)
  {
    if status == "loading" then None
    else if session.Some? then
      if session.value.role == "ADMIN" then Some(AdminPath) else Some(DashboardPath)
    else Some(SignInPath)
  }

  /** The landing page and the middleware agree: when the token carries the
      session's role, an ADMIN or EMPLOYEE session is sent to a page the
      middleware admits, and a session with any other role is sent to
      "/dashboard", which the middleware bounces to the sign-in page. */
  lemma LandingAgreesWithMiddleware(status: string, user: SessionUser)
    requires status != "loading"
    ensures var target := LandingTarget(status, Some(user));
            var token := Some(Token(Some(user.role)));
            && target.Some?
            && ((user.role == "ADMIN" || user.role == "EMPLOYEE") ==> Middleware(token, target.value) == Next)
            && ((user.role != "ADMIN" && user.role != "EMPLOYEE") ==>
                  Middleware(token, target.value) == Redirect(SignInPath))
  {
    assert StartsWith(AdminPath, AdminPath);
    assert StartsWith(DashboardPath, DashboardPath);
    assert !StartsWith(DashboardPath, AdminPath) by { assert DashboardPath[1] != AdminPath[1]; }
  }
}
