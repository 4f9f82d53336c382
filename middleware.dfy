/** The request middleware guarding the admin area: a chain of early
    returns over the session cookie, the path and the outcome of asking the
    role-verification endpoint. */
module Middleware {
  import opened Js
  import VerifyRole

  datatype Decision = RedirectSignIn | RedirectUnauthorized | Continue

  /** How the call to the role-verification endpoint went: `fetch` threw, or
      a response came back with a status and a body that either failed to
      parse as JSON (`None`) or whose `authorized` had the given truthiness. */
  datatype RoleCheck = FetchThrew | Responded(status: int, authorized: Option<bool>)

  /** `pathname.startsWith("/admin")`. */
  predicate IsAdminPath(pathname: string)
  {
    StartsWith(pathname, "/admin")
  }

  /** `getSessionCookie` gave a truthy value. */
  predicate HasCookie(cookie: Option<string>)
  {
    cookie.Some? && cookie.value != ""
  }

  /** The decision for one request. The role check is consulted only on an
      admin path. */
  function Decide(cookie: Option<string>, pathname: string, check: RoleCheck): Decision
  {
    if !HasCookie(cookie) then RedirectSignIn
    else if !IsAdminPath(pathname) then Continue
    else
      match check
      case FetchThrew => RedirectSignIn
      case Responded(status, authorized) =>
        if !IsOk(status) then RedirectUnauthorized
        else if authorized.None? then RedirectSignIn
        else if !authorized.value then RedirectUnauthorized
        else Continue
  }

  /** Without a session cookie every request goes to the sign-in page. */
  lemma NoCookieSignsIn(cookie: Option<string>, pathname: string, check: RoleCheck)
    requires !HasCookie(cookie)
    ensures Decide(cookie, pathname, check) == RedirectSignIn
  {
  }

  /** With a cookie, a path outside the admin prefix continues whatever the
      role check would have said. */
  lemma NonAdminContinues(cookie: Option<string>, pathname: string, check: RoleCheck)
    requires HasCookie(cookie) && !IsAdminPath(pathname)
    ensures Decide(cookie, pathname, check) == Continue
  {
  }

  /** The admin test is a plain prefix test. */
  lemma AdminPrefixExamples()
    ensures IsAdminPath("/admin") && IsAdminPath("/admin/x") && IsAdminPath("/administrator")
    ensures !IsAdminPath("/Admin") && !IsAdminPath("/adm") && !IsAdminPath("/x/admin")
  {
    assert "/administrator"[..6] == "/admin";
    assert "/admin/x"[..6] == "/admin";
    assert "/x/admin"[..6] != "/admin" by { assert "/x/admin"[1] == 'x'; }
    assert "/Admin"[..6] != "/admin" by { assert "/Admin"[1] == 'A'; }
  }

  /** The paths the middleware is configured for (`/admin/:path*`) all
      take the admin branch. */
  predicate MatcherSelects(pathname: string)
  {
    pathname == "/admin" || StartsWith(pathname, "/admin/")
  }

  lemma MatchedPathsAreAdmin(pathname: string)
    requires MatcherSelects(pathname)
    ensures IsAdminPath(pathname)
  {
    if pathname != "/admin" {
      assert pathname[..6] == pathname[..7][..6];
    }
  }

  /** The gate as configured: the middleware runs only on the paths the
      matcher selects, and every other request continues untouched. */
  function Gate(cookie: Option<string>, pathname: string, check: RoleCheck): Decision
  {
    if MatcherSelects(pathname) then Decide(cookie, pathname, check) else Continue
  }

  /** As configured, a request continues exactly when the matcher skips its
      path, or it has a cookie and got an OK response with a truthy
      `authorized`. */
  lemma GateContinueIff(cookie: Option<string>, pathname: string, check: RoleCheck)
    ensures Gate(cookie, pathname, check) == Continue <==>
      !MatcherSelects(pathname)
      || (HasCookie(cookie) && check.Responded? && IsOk(check.status) && check.authorized == Some(true))
  {
    if MatcherSelects(pathname) {
      MatchedPathsAreAdmin(pathname);
    }
  }

  /** As configured, a request without a cookie is sent to the sign-in page
      exactly when the matcher selects its path. */
  lemma GateCookieless(cookie: Option<string>, pathname: string, check: RoleCheck)
    requires !HasCookie(cookie)
    ensures Gate(cookie, pathname, check) == RedirectSignIn <==> MatcherSelects(pathname)
    ensures !MatcherSelects(pathname) ==> Gate(cookie, pathname, check) == Continue
  {
  }

  /** `/administrator` and `/contacts` are not selected by the matcher, so
      they pass the configured gate even without a cookie, while `/admin/x`
      is sent to the sign-in page. */
  lemma GateExamples(check: RoleCheck)
    ensures Gate(None, "/administrator", check) == Continue
    ensures Gate(None, "/contacts", check) == Continue
    ensures Gate(None, "/admin/x", check) == RedirectSignIn
  {
    assert "/administrator" != "/admin" && !StartsWith("/administrator", "/admin/") by {
      assert "/administrator"[6] == 'i';
    }
    assert "/contacts" != "/admin" && !StartsWith("/contacts", "/admin/") by {
      assert "/contacts"[1] == 'c';
    }
    assert StartsWith("/admin/x", "/admin/") by {
      assert "/admin/x"[..7] == "/admin/";
    }
  }

  /** On an admin path with a cookie: a non-OK response or a falsy
      `authorized` leads to the unauthorized page, a thrown fetch or an
      unparsable body to the sign-in page. */
  lemma AdminOutcomes(cookie: Option<string>, pathname: string, check: RoleCheck)
    requires HasCookie(cookie) && IsAdminPath(pathname)
    ensures check.Responded? && !IsOk(check.status) ==> Decide(cookie, pathname, check) == RedirectUnauthorized
    ensures check.Responded? && IsOk(check.status) && check.authorized == Some(false) ==>
      Decide(cookie, pathname, check) == RedirectUnauthorized
    ensures check.FetchThrew? ==> Decide(cookie, pathname, check) == RedirectSignIn
    ensures check.Responded? && IsOk(check.status) && check.authorized.None? ==>
      Decide(cookie, pathname, check) == RedirectSignIn
  {
  }

  /** A request continues exactly when it has a cookie and either is not
      for the admin area or got an OK response with a truthy `authorized`. */
  lemma ContinueIff(cookie: Option<string>, pathname: string, check: RoleCheck)
    ensures Decide(cookie, pathname, check) == Continue <==>
      HasCookie(cookie)
      && (!IsAdminPath(pathname) || (check.Responded? && IsOk(check.status) && check.authorized == Some(true)))
  {
  }

  /** The role check as made against the role-verification endpoint for a
      given session lookup. */
  function CheckAgainst(lookup: VerifyRole.SessionLookup): RoleCheck
  {
    var r := VerifyRole.Respond(lookup);
    Responded(r.status, Some(r.authorized))
  }

  /** End to end: an admin request continues exactly when the session's
      role is "admin" or "moderator"; an ordinary role, no session, or a
      failed lookup leads to the unauthorized page. */
  lemma {:induction false} AdminGate(cookie: Option<string>, pathname: string, lookup: VerifyRole.SessionLookup)
    requires HasCookie(cookie) && IsAdminPath(pathname)
    ensures Decide(cookie, pathname, CheckAgainst(lookup)) == Continue <==>
      lookup.Found? && VerifyRole.Authorized(lookup.session)
    ensures Decide(cookie, pathname, CheckAgainst(lookup)) != Continue ==>
      Decide(cookie, pathname, CheckAgainst(lookup)) == RedirectUnauthorized
  {
    var r := VerifyRole.Respond(lookup);
    assert IsOk(r.status) <==> lookup.Found?;
  }
}
