/** `handleEvent`: route the request, serve assets with security headers,
    and recover from a failed asset lookup with the 404 page or a 500. */
module Site {
  import opened Fetch
  import opened Router
  import opened Proxy

  /** A thrown error: its `message`, and what `toString()` gives. */
  datatype Failure = Failure(message: string, text: string)

  /** `e.message || e.toString()`. */
  function ErrorBody(e: Failure): string {
    if e.message != "" then e.message else e.text
  }

  /** A response from the asset store, without its stream. */
  datatype Page = Page(status: int, statusText: string, headers: HeaderMap, body: string)

  /** Outcome of one asset-store lookup: a page, or the error it threw. */
  datatype Lookup = Found(page: Page) | Thrown(error: Failure)

  /** The stored (lower-case) names of the five security headers. */
  const SecurityHeaderKeys: set<string> :=
    {"x-xss-protection", "x-content-type-options", "x-frame-options", "referrer-policy", "feature-policy"}

  /** The five header names as the worker writes them lower-case to the same keys. */
  lemma SecurityNamesLowered()
    ensures Lower("X-XSS-Protection") == "x-xss-protection"
    ensures Lower("X-Content-Type-Options") == "x-content-type-options"
    ensures Lower("X-Frame-Options") == "x-frame-options"
    ensures Lower("Referrer-Policy") == "referrer-policy"
    ensures Lower("Feature-Policy") == "feature-policy"
  {
    LowerMatches("X-XSS-Protection", "x-xss-protection");
    LowerMatches("X-Content-Type-Options", "x-content-type-options");
    LowerMatches("X-Frame-Options", "x-frame-options");
    LowerMatches("Referrer-Policy", "referrer-policy");
    LowerMatches("Feature-Policy", "feature-policy");
  }

  /** Reference definition of the asset response headers: the five security
      headers set over whatever the page carried. */
  function Secured(h: HeaderMap): (r: HeaderMap)
    ensures Get(r, "X-XSS-Protection") == "1; mode=block"
    ensures Get(r, "X-Content-Type-Options") == "nosniff"
    ensures Get(r, "X-Frame-Options") == "DENY"
    ensures Get(r, "Referrer-Policy") == "unsafe-url"
    ensures Get(r, "Feature-Policy") == "none"
    ensures r.Keys == h.Keys + SecurityHeaderKeys
    ensures forall k :: k in h && k !in SecurityHeaderKeys ==> r[k] == h[k]
    ensures forall n :: Lower(n) !in SecurityHeaderKeys ==> Get(r, n) == Get(h, n)
  {
    SecurityNamesLowered();
    h[Lower("X-XSS-Protection") := "1; mode=block"]
     [Lower("X-Content-Type-Options") := "nosniff"]
     [Lower("X-Frame-Options") := "DENY"]
     [Lower("Referrer-Policy") := "unsafe-url"]
     [Lower("Feature-Policy") := "none"]
  }

  /** The asset branch on success (lines 56-64): a new response copying the
      page, whose headers object then gets the five security headers set. */
  method SecureAsset(page: Page) returns (response: Page)
    ensures response == page.(headers := Secured(page.headers))
  {
    var headers := new Headers(page.headers);
    headers.Set("X-XSS-Protection", "1; mode=block");
    headers.Set("X-Content-Type-Options", "nosniff");
    headers.Set("X-Frame-Options", "DENY");
    headers.Set("Referrer-Policy", "unsafe-url");
    headers.Set("Feature-Policy", "none");
    response := Page(page.status, page.statusText, headers.entries, page.body);
  }

  /** The request the fallback lookup maps to: the same request, aimed at
      /404.html on the same origin (the query string is dropped). */
  function NotFoundRequest(req: Request): (nf: Request)
    ensures nf.pathname == "/404.html" && nf.search == ""
    ensures nf.verb == req.verb && nf.origin == req.origin && nf.headers == req.headers
  {
    req.(pathname := "/404.html", search := "")
  }

  /** Every failed page of one origin falls back to the same request, whatever
      its path and query string. */
  lemma NotFoundTargetIgnoresPath(a: Request, b: Request)
    requires a.verb == b.verb && a.origin == b.origin && a.headers == b.headers
    ensures NotFoundRequest(a) == NotFoundRequest(b)
  {
  }

  /** `new Response(e.message || e.toString(), { status: 500 })`. */
  function ErrorPage(e: Failure): Page {
    Page(500, "", map[], ErrorBody(e))
  }

  /** The catch block (lines 66-78). Without DEBUG the 404 page is looked up
      and, when found, served with status 404; if that lookup throws too, its
      error is dropped. Otherwise the answer is a 500 carrying the ORIGINAL
      error's text. */
  function Recover(debug: bool, error: Failure, req: Request, assets: Request -> Lookup): (r: Page)
    ensures r.status == 404 <==> !debug && assets(NotFoundRequest(req)).Found?
    ensures r.status == 404 ==> r == assets(NotFoundRequest(req)).page.(status := 404)
    ensures r.status != 404 ==> r == ErrorPage(error)
  {
    if !debug && assets(NotFoundRequest(req)).Found? then
      assets(NotFoundRequest(req)).page.(status := 404)
    else
      ErrorPage(error)
  }

  /** What the worker answers. */
  datatype Reply =
    | Proxied(url: string, outbound: OutboundInit, response: ResponseInit)
    | Served(page: Page)

  /** `handleEvent` with the asset store and `fetch` as parameters. Besides the
      reply it returns, in order, the requests the asset store was asked for. */
  method HandleEvent(debug: bool, req: Request, assets: Request -> Lookup, fetch: (string, OutboundInit) -> Upstream)
    returns (reply: Reply, lookups: seq<Request>)
    ensures reply.Proxied? <==> req.verb == "GET" && ProxyPrefix <= req.pathname
    ensures reply.Proxied? ==>
              && reply.url == SchemeFragment + req.pathname
              && reply.outbound == OutboundInit(req.verb, ForwardedRequestHeaders(req.headers))
              && var up := fetch(reply.url, reply.outbound);
                 reply.response == ResponseInit(up.status, up.statusText, FilteredResponseHeaders(up.headers))
    ensures reply.Served? && assets(req).Found? ==>
              reply.page == assets(req).page.(headers := Secured(assets(req).page.headers))
    ensures reply.Served? && assets(req).Thrown? ==>
              reply.page == Recover(debug, assets(req).error, req, assets)
    ensures lookups == if reply.Proxied? then []
                       else if assets(req).Found? || debug then [req]
                       else [req, NotFoundRequest(req)]
  {
    var route := RouteOf(req);
    if route.ToProxy? {
      var init := BuildOutbound(req);
      var upstream := fetch(route.url, init);
      var filtered := FilterResponse(upstream);
      reply, lookups := Proxied(route.url, init, filtered), [];
    } else {
      var first := assets(req);
      lookups := [req];
      match first
      case Found(page) =>
        var response := SecureAsset(page);
        reply := Served(response);
      case Thrown(e) =>
        if !debug {
          lookups := lookups + [NotFoundRequest(req)];
        }
        reply := Served(Recover(debug, e, req, assets));
    }
  }
}
