// The edge middleware (middleware.ts): it only decides response headers.
// Assets and API paths pass untouched, pre-flight requests get CORS
// headers, and the single-page routes get CORS headers, the caller's
// `Authorization` header and a row-level-security hint.
//
// The request is its path (already taken from the URL), its method and its
// `Authorization` header, if any.

module Middleware {
  import opened Common

  datatype Request = Request(pathname: string, httpMethod: string, authorization: Option<string>)

  datatype Response = Response(status: int, headers: map<string, string>)

  const AllowOrigin := "Access-Control-Allow-Origin"
  const AllowMethods := "Access-Control-Allow-Methods"
  const AllowHeaders := "Access-Control-Allow-Headers"
  const MaxAge := "Access-Control-Max-Age"
  const RlsMode := "X-Rls-Mode"

  const CorsHeaders: map<string, string> := map[
    AllowOrigin := "*",
    AllowMethods := "GET, POST, PUT, DELETE, OPTIONS",
    AllowHeaders := "Authorization, Content-Type, X-Rls-Mode"
  ]

  /** Paths answered at once with no headers. */
  predicate IsAssetOrApi(pathname: string) {
    || StartsWith(pathname, "/api") || StartsWith(pathname, "/_next") || StartsWith(pathname, "/assets")
    || pathname == "/favicon.ico" || pathname == "/robots.txt"
    || EndsWith(pathname, ".png") || EndsWith(pathname, ".jpg") || EndsWith(pathname, ".webp")
    || EndsWith(pathname, ".svg") || EndsWith(pathname, ".css") || EndsWith(pathname, ".js")
  }

  predicate IsAppRoute(pathname: string) {
    StartsWith(pathname, "/admin") || StartsWith(pathname, "/gallery") || pathname == "/"
  }

  /** The single-page routes' headers: CORS, the echoed credentials, and the RLS hint. */
  function AppRouteHeaders(pathname: string, authorization: Option<string>): (h: map<string, string>)
    ensures forall k :: k in CorsHeaders ==> k in h && h[k] == CorsHeaders[k]
    ensures "Authorization" in h <==> authorization.Some? && authorization.value != ""
    ensures "Authorization" in h ==> h["Authorization"] == authorization.value
    ensures RlsMode in h <==> StartsWith(pathname, "/admin") || (StartsWith(pathname, "/gallery") && authorization.None?)
    ensures RlsMode in h ==>
      h[RlsMode] == if StartsWith(pathname, "/gallery") && authorization.None? then "public" else "private"
    ensures MaxAge !in h
  {
    var withAuth :=
      if authorization.Some? && authorization.value != "" then CorsHeaders["Authorization" := authorization.value]
      else CorsHeaders;
    if StartsWith(pathname, "/gallery") && authorization.None? then withAuth[RlsMode := "public"]
    else if StartsWith(pathname, "/admin") then withAuth[RlsMode := "private"]
    else withAuth
  }

  /** `middleware(request)`. */
  function Handle(request: Request): (r: Response)
    ensures r.status == 200
    ensures IsAssetOrApi(request.pathname) ==> r.headers == map[]
    ensures !IsAssetOrApi(request.pathname) && request.httpMethod == "OPTIONS" ==>
      r.headers == CorsHeaders[MaxAge := "86400"]
    ensures !IsAssetOrApi(request.pathname) && request.httpMethod != "OPTIONS" ==>
      r.headers == if IsAppRoute(request.pathname) then AppRouteHeaders(request.pathname, request.authorization) else map[]
  {
    if IsAssetOrApi(request.pathname) then Response(200, map[])
    else if request.httpMethod == "OPTIONS" then Response(200, CorsHeaders[MaxAge := "86400"])
    else if IsAppRoute(request.pathname) then Response(200, AppRouteHeaders(request.pathname, request.authorization))
    else Response(200, map[])
  }

  /**
   * The RLS hint of any response: `public` exactly for an anonymous
   * gallery page, `private` exactly for an admin page, and none otherwise.
   */
  lemma RlsHint(request: Request)
    ensures var h := Handle(request).headers;
      && (RlsMode in h && h[RlsMode] == "public" <==>
            !IsAssetOrApi(request.pathname) && request.httpMethod != "OPTIONS"
            && StartsWith(request.pathname, "/gallery") && request.authorization.None?)
      && (RlsMode in h && h[RlsMode] == "private" <==>
            !IsAssetOrApi(request.pathname) && request.httpMethod != "OPTIONS"
            && StartsWith(request.pathname, "/admin"))
  {
    var p := request.pathname;
    assert StartsWith(p, "/gallery") ==> p[1] == 'g';
    assert StartsWith(p, "/admin") ==> p[1] == 'a';
  }

  /** An empty `Authorization` header is not echoed, yet it still counts as present and suppresses the public hint. */
  lemma EmptyAuthorizationOnGallery(pathname: string, httpMethod: string)
    requires StartsWith(pathname, "/gallery") && !IsAssetOrApi(pathname) && httpMethod != "OPTIONS"
    ensures Handle(Request(pathname, httpMethod, Some(""))).headers == CorsHeaders
  {
    assert !StartsWith(pathname, "/admin") by { assert pathname[1] == 'g'; }
  }

  /** Images under the app's routes are still treated as assets. */
  lemma GalleryImageIsAsset()
    ensures Handle(Request("/gallery/cover.png", "OPTIONS", None)).headers == map[]
  {
    assert EndsWith("/gallery/cover.png", ".png");
  }
}
