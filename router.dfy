/** The routing decision at the head of `handleEvent`: which requests are
    proxied to the webcam origin and which are served from the asset store. */
module Router {
  import opened Fetch

  /** Paths under this prefix mirror the upstream origin. */
  const ProxyPrefix: string := "/api.nvseismolab.org/"

  /** Prepended to the path to form the upstream URL; with the path's own
      leading slash it becomes "http://". */
  const SchemeFragment: string := "http:/"

  /** The upstream origin that the prefix mirrors. */
  const UpstreamOrigin: string := "http://api.nvseismolab.org/"

  datatype Route = ToProxy(url: string) | ToAssets

  /** A GET whose path starts with the prefix goes to the proxy, with the
      upstream URL being the scheme fragment followed by the path as it is
      (the query string is not part of it); everything else goes to the
      asset store. */
  function RouteOf(req: Request): (r: Route)
    ensures r.ToProxy? <==> req.verb == "GET" && ProxyPrefix <= req.pathname
    ensures r.ToProxy? ==> r.url == UpstreamOrigin + req.pathname[|ProxyPrefix|..]
    ensures r.ToProxy? ==> |r.url| == |SchemeFragment| + |req.pathname|
    ensures r.ToProxy? ==> r.url[|SchemeFragment|..] == req.pathname
  {
    if req.verb == "GET" && ProxyPrefix <= req.pathname then
      UpstreamUrlShape(req.pathname);
      ToProxy(SchemeFragment + req.pathname)
    else
      ToAssets
  }

  /** Prepending the scheme fragment to a mirrored path names the upstream
      origin and keeps the rest of the path. */
  lemma UpstreamUrlShape(pathname: string)
    requires ProxyPrefix <= pathname
    ensures SchemeFragment + pathname == UpstreamOrigin + pathname[|ProxyPrefix|..]
  {
  }

  /** A webcam image request keeps its file name, extension included. */
  lemma WebcamImageIsProxied(headers: HeaderMap)
    ensures RouteOf(Request("GET", "https://walbridge.example", "/api.nvseismolab.org/cam1.jpg", "", headers))
            == ToProxy("http://api.nvseismolab.org/cam1.jpg")
  {
  }

  /** The query string of a proxied request is not part of the upstream URL. */
  lemma QueryIsNotForwarded(req: Request, search: string)
    ensures RouteOf(req.(search := search)) == RouteOf(req)
  {
  }

  /** A request whose method is not GET goes to the asset store, whatever its path. */
  lemma OnlyGetIsProxied(req: Request)
    requires req.verb != "GET"
    ensures RouteOf(req) == ToAssets
  {
  }
}
