// Blocking of development-only pages in production builds
// (modules/auth/middleware/routeProtection.ts). The build mode
// (`import.meta.env.DEV`) is the `dev` input.

module RouteProtection {
  import opened Common

  const BlockedRoutes: seq<string> := [
    "/sandbox", "/debug", "/test", "/dev", "/auth-debug",
    "/upload-test", "/stripe-link-check", "/webhook-check", "/api-debug", "/component-test"
  ]

  /** `shouldBlockRoute(pathname)`: never in development; in production, a path under any listed prefix. */
  function ShouldBlockRoute(dev: bool, pathname: string): (r: bool)
    ensures dev ==> !r
    ensures !dev ==> (r <==> exists k :: 0 <= k < |BlockedRoutes| && StartsWith(pathname, BlockedRoutes[k]))
  {
    !dev && BlockedByAny(pathname, BlockedRoutes)
  }

  /** `routes.some(route => pathname.startsWith(route))`. */
  function BlockedByAny(pathname: string, routes: seq<string>): (r: bool)
    ensures r <==> exists k :: 0 <= k < |routes| && StartsWith(pathname, routes[k])
  {
    if |routes| == 0 then false
    else
      assert forall k :: 1 <= k < |routes| ==> routes[k] == routes[1..][k - 1];
      StartsWith(pathname, routes[0]) || BlockedByAny(pathname, routes[1..])
  }

  datatype ProtectionResult = ProtectionResult(allowed: bool, redirectTo: Option<string>, reason: Option<string>)

  /** `routeProtection(pathname)`: a blocked path is sent to `/404`; anything else passes with no redirect. */
  function RouteProtectionFor(dev: bool, pathname: string): (r: ProtectionResult)
    ensures r.allowed <==> !ShouldBlockRoute(dev, pathname)
    ensures r.allowed ==> r.redirectTo.None? && r.reason.None?
    ensures !r.allowed ==> r.redirectTo == Some("/404") && r.reason == Some("Development route blocked in production")
  {
    if ShouldBlockRoute(dev, pathname) then
      ProtectionResult(false, Some("/404"), Some("Development route blocked in production"))
    else ProtectionResult(true, None, None)
  }

  /** `getBlockedRoutes()`: a copy of the list `shouldBlockRoute` checks, ten prefixes, all distinct. */
  function GetBlockedRoutes(): (r: seq<string>)
    ensures forall p :: ShouldBlockRoute(false, p) <==> exists k :: 0 <= k < |r| && StartsWith(p, r[k])
    ensures |r| == 10
    ensures forall i, j :: 0 <= i < j < |r| ==> r[i] != r[j]
    ensures forall k :: 0 <= k < |r| ==> |r[k]| > 1 && r[k][0] == '/'
  {
    BlockedRoutes
  }

  /** Blocking is by prefix: anything under a blocked path is blocked too. */
  lemma BlockedExtends(dev: bool, pathname: string, suffix: string)
    requires ShouldBlockRoute(dev, pathname)
    ensures ShouldBlockRoute(dev, pathname + suffix)
  {
    var k :| 0 <= k < |BlockedRoutes| && StartsWith(pathname, BlockedRoutes[k]);
    assert (pathname + suffix)[..|BlockedRoutes[k]|] == pathname[..|BlockedRoutes[k]|];
  }

  /** `/testimonials` falls under `/test` and is blocked in production. */
  lemma TestimonialsBlocked()
    ensures !RouteProtectionFor(false, "/testimonials").allowed
  {
    assert StartsWith("/testimonials", BlockedRoutes[2]);
  }
}
