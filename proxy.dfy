/**
 * The request-interception hook: tenant subdomains are rewritten onto the
 * public `/{slug}` route, and the dashboard and sign-in pages redirect on
 * the caller's authentication. Cookie plumbing and the matcher are left out.
 */
module Proxy {
  import opened Wrappers
  import opened Text

  /** The main domain when the environment does not name one. */
  const DefaultMainDomain: string := "localhost:3000"

  /** `process.env.NEXT_PUBLIC_MAIN_DOMAIN || 'localhost:3000'`. */
  function MainDomain(env: Option<string>): (d: string)
    ensures env.Some? && env.value != "" ==> d == env.value
    ensures env.None? || env.value == "" ==> d == DefaultMainDomain
  {
    if env.Some? && env.value != "" then env.value else DefaultMainDomain
  }

  /** What the hook answers. */
  datatype Decision =
    | Rewrite(pathname: string)   // serve this internal path instead, URL unchanged
    | Redirect(pathname: string)  // redirect to this path on the request's own origin
    | Next                        // let the request through as it is

  /** A host that names a tenant: not the main domain and not a `www.` host. */
  predicate IsTenantHost(host: string, mainDomain: string) {
    host != mainDomain && !StartsWith(host, "www.")
  }

  /** `hostname.split('.')[0]`. */
  function Subdomain(host: string): (sub: string)
    ensures sub <= host
    ensures '.' !in sub
    ensures sub == host || host[|sub|] == '.'
  {
    BeforeFirst(host, '.')
  }

  /** Framework-internal, API and static paths, which are never rewritten. */
  predicate IsSystemPath(path: string) {
    StartsWith(path, "/_next") || StartsWith(path, "/api") || StartsWith(path, "/static")
  }

  /** The internal path a tenant request is served from. */
  function TenantPath(sub: string, path: string): string {
    "/" + sub + (if path == "/" then "" else path)
  }

  /**
   * The hook. `hostHeader` is the request's Host header, `signedIn` whether
   * the hosted auth service knows a user for the request's session.
   */
  function Middleware(hostHeader: Option<string>, path: string, mainDomainEnv: Option<string>, signedIn: bool): (d: Decision)
    ensures d.Rewrite? <==> IsTenantHost(hostHeader.GetOr(""), MainDomain(mainDomainEnv)) && !IsSystemPath(path)
    ensures d.Rewrite? ==> d.pathname == TenantPath(Subdomain(hostHeader.GetOr("")), path)
    ensures d.Redirect? ==> d.pathname == "/auth/signin" || d.pathname == "/dashboard"
  {
    var host := hostHeader.GetOr("");
    if IsTenantHost(host, MainDomain(mainDomainEnv)) && !IsSystemPath(path) then
      Rewrite(TenantPath(Subdomain(host), path))
    else if StartsWith(path, "/dashboard") && !signedIn then
      Redirect("/auth/signin")
    else if StartsWith(path, "/auth") && signedIn then
      Redirect("/dashboard")
    else
      Next
  }

  /** The main domain and `www.` hosts are never rewritten, whatever the path. */
  lemma MainAndWwwNeverRewritten(hostHeader: Option<string>, path: string, mainDomainEnv: Option<string>, signedIn: bool)
    requires hostHeader.GetOr("") == MainDomain(mainDomainEnv) || StartsWith(hostHeader.GetOr(""), "www.")
    ensures !Middleware(hostHeader, path, mainDomainEnv, signedIn).Rewrite?
  {
  }

  /** Paths under `/_next`, `/api` and `/static` are never rewritten, whatever the host. */
  lemma SystemPathsNeverRewritten(hostHeader: Option<string>, path: string, mainDomainEnv: Option<string>, signedIn: bool)
    requires IsSystemPath(path)
    ensures !Middleware(hostHeader, path, mainDomainEnv, signedIn).Rewrite?
  {
  }

  /**
   * A tenant rewrite is decided before authentication is looked at: the
   * answer is the same for a signed-in and an anonymous caller.
   */
  lemma RewriteIgnoresAuthentication(hostHeader: Option<string>, path: string, mainDomainEnv: Option<string>)
    requires Middleware(hostHeader, path, mainDomainEnv, false).Rewrite? || Middleware(hostHeader, path, mainDomainEnv, true).Rewrite?
    ensures Middleware(hostHeader, path, mainDomainEnv, false) == Middleware(hostHeader, path, mainDomainEnv, true)
  {
  }

  /** Off tenant hosts, an anonymous request under `/dashboard` goes to the sign-in page. */
  lemma AnonymousDashboardRedirects(hostHeader: Option<string>, path: string, mainDomainEnv: Option<string>)
    requires !IsTenantHost(hostHeader.GetOr(""), MainDomain(mainDomainEnv)) || IsSystemPath(path)
    requires StartsWith(path, "/dashboard")
    ensures Middleware(hostHeader, path, mainDomainEnv, false) == Redirect("/auth/signin")
  {
  }

  /**
   * Off tenant hosts, a signed-in request under `/auth` goes to the dashboard,
   * and every request that neither rule catches passes through unchanged.
   */
  lemma SignedInAuthRedirects(hostHeader: Option<string>, path: string, mainDomainEnv: Option<string>, signedIn: bool)
    requires !IsTenantHost(hostHeader.GetOr(""), MainDomain(mainDomainEnv)) || IsSystemPath(path)
    ensures StartsWith(path, "/auth") && signedIn && !StartsWith(path, "/dashboard") ==>
              Middleware(hostHeader, path, mainDomainEnv, signedIn) == Redirect("/dashboard")
    ensures !(StartsWith(path, "/dashboard") && !signedIn) && !(StartsWith(path, "/auth") && signedIn) ==>
              Middleware(hostHeader, path, mainDomainEnv, signedIn) == Next
  {
  }

  /** The first segment of an absolute path and what follows it. */
  function SplitRoute(p: string): (string, string)
    requires StartsWith(p, "/")
  {
    var seg := BeforeFirst(p[1..], '/');
    (seg, p[1 + |seg|..])
  }

  /**
   * The rewritten path reaches the `/[slug]` route with the subdomain as its
   * slug, followed by the original path (nothing for the root path). This is
   * the inverse of TenantPath on the paths the hook sees.
   */
  lemma {:induction false} TenantPathRoundTrip(sub: string, path: string)
    requires '/' !in sub
    requires StartsWith(path, "/")
    ensures StartsWith(TenantPath(sub, path), "/")
    ensures SplitRoute(TenantPath(sub, path)) == (sub, if path == "/" then "" else path)
  {
    var rest := if path == "/" then "" else path;
    var p := TenantPath(sub, path);
    assert p[1..] == sub + rest;
    BeforeFirstStopsAt(sub, rest, '/');
  }

  /** Cutting at a separator that only the second part can hold yields the first part. */
  lemma {:induction false} BeforeFirstStopsAt(a: string, b: string, sep: char)
    requires sep !in a
    requires b == [] || b[0] == sep
    ensures BeforeFirst(a + b, sep) == a
  {
    if a == [] {
      assert a + b == b;
    } else {
      assert (a + b)[1..] == a[1..] + b;
      BeforeFirstStopsAt(a[1..], b, sep);
    }
  }
}
