/**
 * The session guard that runs in front of every routed request: paths under the
 * public prefixes pass, any other request passes only with an `auth-token` cookie
 * whose value verifies as a signed token; everything else is sent to the login page.
 */
module Middleware {

  /** Path prefixes that need no session. */
  const PublicPaths: seq<string> := ["/login", "/api/auth/login"]

  /** Where a request without a valid session is sent. */
  const LoginPath: string := "/login"

  /** The cookie that carries the session token. */
  const TokenCookie: string := "auth-token"

  /** What the guard does with a request: let it through, or redirect it. */
  datatype Decision = Next | Redirect(location: string)

  /** A path is public when some listed prefix starts it. */
  ghost predicate IsPublic(path: string) {
    exists i :: 0 <= i < |PublicPaths| && PublicPaths[i] <= path
  }

  /** The allow-list test, scanning the prefixes in order and stopping at the first that matches. */
  function SomePrefix(prefixes: seq<string>, path: string): (b: bool)
    ensures b <==> exists i :: 0 <= i < |prefixes| && prefixes[i] <= path
  {
    if prefixes == [] then false
    else if prefixes[0] <= path then true
    else
      var b := SomePrefix(prefixes[1..], path);
      assert forall i :: 1 <= i < |prefixes| ==> prefixes[i] == prefixes[1..][i - 1];
      b
  }

  /** The session token of a request: the cookie's value if the cookie is sent. */
  function Token(cookies: map<string, string>): (t: string)
    ensures TokenCookie in cookies ==> t == cookies[TokenCookie]
    ensures TokenCookie !in cookies ==> t == ""
  {
    if TokenCookie in cookies then cookies[TokenCookie] else ""
  }

  /**
   * The request guard. `verifies(token)` stands for the signature and expiry check,
   * false both when the token is rejected and when the check throws; an empty cookie
   * value counts as no cookie, as a missing one does.
   */
  function Guard(path: string, cookies: map<string, string>, verifies: string -> bool): (d: Decision)
    ensures d.Next? <==> IsPublic(path) || (TokenCookie in cookies && cookies[TokenCookie] != "" && verifies(cookies[TokenCookie]))
    ensures d.Redirect? ==> d.location == LoginPath
  {
    if SomePrefix(PublicPaths, path) then Next
    else
      var token := Token(cookies);
      if token == "" then Redirect(LoginPath)
      else if verifies(token) then Next
      else Redirect(LoginPath)
  }

  /** A public path passes whatever cookies it carries and whatever the verifier says. */
  lemma PublicPathsPass(path: string, cookies: map<string, string>, verifies: string -> bool)
    requires "/login" <= path || "/api/auth/login" <= path
    ensures Guard(path, cookies, verifies) == Next
  {
    if "/login" <= path {
      assert PublicPaths[0] <= path;
    } else {
      assert PublicPaths[1] <= path;
    }
  }

  /** The allow-list is a prefix test, so a path that merely starts like the login page is public too. */
  lemma LookAlikePathsArePublic(cookies: map<string, string>, verifies: string -> bool)
    ensures Guard("/login-x", cookies, verifies) == Next
    ensures Guard("/loginpage/admin", cookies, verifies) == Next
  {
    PublicPathsPass("/login-x", cookies, verifies);
    PublicPathsPass("/loginpage/admin", cookies, verifies);
  }

  /** A protected path without a token cookie is redirected to the login page. */
  lemma MissingTokenRedirects(path: string, cookies: map<string, string>, verifies: string -> bool)
    requires !IsPublic(path)
    requires TokenCookie !in cookies || cookies[TokenCookie] == ""
    ensures Guard(path, cookies, verifies) == Redirect(LoginPath)
  {
  }

  /** The guard fails closed: a protected path whose token does not verify is redirected. */
  lemma RejectedTokenRedirects(path: string, cookies: map<string, string>, verifies: string -> bool)
    requires !IsPublic(path)
    requires TokenCookie in cookies && !verifies(cookies[TokenCookie])
    ensures Guard(path, cookies, verifies) == Redirect(LoginPath)
  {
  }

  /** The redirect target is itself public, so a redirected request cannot be redirected again. */
  lemma RedirectTargetPasses(path: string, cookies: map<string, string>, cookies': map<string, string>, verifies: string -> bool)
    requires Guard(path, cookies, verifies).Redirect?
    ensures Guard(Guard(path, cookies, verifies).location, cookies', verifies) == Next
  {
    PublicPathsPass(LoginPath, cookies', verifies);
  }

  /** A protected path passes only on the strength of its token: no cookie, no entry. */
  lemma ProtectedNeedsToken(path: string, verifies: string -> bool)
    requires !IsPublic(path)
    ensures Guard(path, map[], verifies) == Redirect(LoginPath)
    ensures forall t :: t != "" && verifies(t) ==> Guard(path, map[TokenCookie := t], verifies) == Next
  {
  }

  /**
   * The protected branch is reachable: the app's own /dashboard page is not under a
   * public prefix, so the cookie and token checks apply to it.
   */
  lemma DashboardIsProtected()
    ensures !IsPublic("/dashboard")
  {
    assert !("/login" <= "/dashboard") by {
      assert "/dashboard"[1] != "/login"[1];
    }
    assert !("/api/auth/login" <= "/dashboard") by {
      assert "/dashboard"[1] != "/api/auth/login"[1];
    }
  }
}
