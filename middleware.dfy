/**
 * The access gate run before every matched request: public paths pass,
 * signed-in users pass, and everyone else is sent to the sign-in page with
 * the requested path as the place to come back to.
 */
module Middleware {
  import opened Strings

  const SignInPath := "/auth/signin"

  /** Auth pages and API, the demo session, static assets and the health check. */
  predicate IsPublic(pathname: string) {
    || StartsWith(pathname, "/auth/")
    || StartsWith(pathname, "/api/auth/")
    || StartsWith(pathname, "/session/demo")
    || StartsWith(pathname, "/_next/")
    || StartsWith(pathname, "/favicon")
    || pathname == "/api/health"
  }

  /** What the gate does: let the request through, or redirect with a `callbackUrl` query parameter. */
  datatype Decision = Pass | Redirect(path: string, callbackUrl: string)

  function Gate(pathname: string, authenticated: bool): (d: Decision)
    ensures d.Pass? <==> IsPublic(pathname) || authenticated
    ensures d.Redirect? ==> d.path == SignInPath && d.callbackUrl == pathname
  {
    if IsPublic(pathname) then Pass
    else if !authenticated then Redirect(SignInPath, pathname)
    else Pass
  }

  /** The sign-in page is itself public, so following a redirect never redirects again. */
  lemma RedirectTargetPasses(pathname: string, authenticated: bool)
    requires Gate(pathname, authenticated).Redirect?
    ensures Gate(Gate(pathname, authenticated).path, authenticated) == Pass
  {
    assert SignInPath[..6] == "/auth/";
  }

  /** `/session/demo` is a prefix test: anything after it stays public. */
  lemma DemoPrefixPublic(suffix: string)
    ensures IsPublic("/session/demo" + suffix)
  {
    assert ("/session/demo" + suffix)[..13] == "/session/demo";
  }

  /** `/api/health` is an exact test: a path below it is gated. */
  lemma HealthIsExact(suffix: string)
    ensures !IsPublic("/api/health/" + suffix)
  {
    var p := "/api/health/" + suffix;
    assert p[..12] == "/api/health/";
    assert p[1] == 'a' && p[2] == 'p' && p[5] == 'h';
  }
}
