# Walbridge edge worker: request routing and header allowlists

This project models the request handler of the site's edge worker,
`workers-site/index.js`. The worker does two things:

- It serves the site's static pages from the key-value asset store. On the way out it adds five
  security headers. When a lookup fails, it falls back to `/404.html`, and if that fails too it
  answers with a 500.
- It reverse-proxies webcam images: a `GET` whose path starts with `/api.nvseismolab.org/` is
  fetched from `http://api.nvseismolab.org/…`.

The proxy is the trust boundary. Only five named request headers go upstream, plus
`X-Forwarded-For`, which is derived from the platform's `cf-connecting-ip`. Only seven named
upstream headers come back, with a default `Cache-Control` when the upstream sends none.

Modules:

- `Fetch` (`fetch.dfy`) holds the platform values the worker touches:
  - a header collection keyed by the stored name (the platform stores names in lower case;
    the type does not enforce it);
  - `Get`, the case-insensitive `headers.get`, which gives `""` for an absent header. An absent
    header and an empty value are both falsy in the worker, so the model does not tell them apart;
  - the `Headers` class, whose `Set` changes the collection in place;
  - the inbound `Request`.
- `Router` (`router.dfy`) holds the routing predicate and the upstream URL (lines 46-50).
- `Proxy` (`proxy.dfy`) models `proxyRequest`. The two `for…of` loops that fill the header
  objects are methods. Each is proved equal to a declarative reference function. Those functions
  state the allowlist properties in their contracts.
- `Site` (`site.dfy`) holds:
  - the asset branch, which sets the security headers on a fresh `Headers` object;
  - the catch block, with the 404 fallback and the 500;
  - `HandleEvent`, which puts these together.

The asset store and `fetch` are parameters of `HandleEvent`: `assets: Request -> Lookup` and
`fetch: (url, init) -> Upstream`. A lookup either finds a page or throws an error. `HandleEvent`
also returns the requests it put to the asset store, in order. This makes "the 404 page is
looked up only when the first lookup failed and DEBUG is off" stateable. `DEBUG` is a parameter;
the source sets it to `false`.

What `index.js` does, as the model states it:

- The upstream URL is `'http:/' + pathname`, with the path unchanged.
- A proxied response starts with `Cache-Control: public, max-age=300`; a non-empty upstream
  `Cache-Control` replaces that value.
- Exactly seven upstream response headers are copied: Content-Type, Cache-Control, Expires,
  Accept-Ranges, Date, Last-Modified and ETag.
- Five security headers are set on an asset response.
- A failed upstream fetch has no 500 path of its own (see below).

## Model

| member | source | states |
|---|---|---|
| `Fetch.GetIgnoresCase` | workers-site/index.js:122-123 | `headers.get` is case-insensitive: two names that lower-case alike read the same value |
| `Fetch.GetOfLowered` | workers-site/index.js:127 | asking for a lower-case name, as the worker does for `cf-connecting-ip`, reads what asking for any spelling of it reads |
| `Fetch.Headers.Set` | workers-site/index.js:58-62 | `headers.set` replaces the entry under the normalised name; afterwards the name reads back the new value, and every name that differs after lower-casing reads what it read before |
| `Router.RouteOf` | workers-site/index.js:46-50 | proxied iff method is `GET` and the path starts with `/api.nvseismolab.org/`; the upstream URL is `http://api.nvseismolab.org/` followed by the rest of the path, unchanged, and ends with the whole inbound path |
| `Router.WebcamImageIsProxied` | workers-site/index.js:46-50 | `GET /api.nvseismolab.org/cam1.jpg` goes to `http://api.nvseismolab.org/cam1.jpg`, extension kept |
| `Router.QueryIsNotForwarded` | workers-site/index.js:47-50 | the query string changes neither the route nor the upstream URL (only `url.pathname` is used) |
| `Router.OnlyGetIsProxied` | workers-site/index.js:46-47 | any method other than `GET` goes to the asset store, whatever its path |
| `Proxy.ForwardedRequestHeaders` | workers-site/index.js:116-130 | outbound header names lie within the five allowlisted names plus `X-Forwarded-For`; each allowlisted header is present iff its inbound value is non-empty, and then it carries that value; `X-Forwarded-For` is present iff `cf-connecting-ip` is non-empty, and then equals it |
| `Proxy.BuildOutbound` | workers-site/index.js:106-130 | the outbound init copies the inbound method, and its loop-built headers are exactly `ForwardedRequestHeaders` of the inbound headers |
| `Proxy.FilteredResponseHeaders` | workers-site/index.js:135-150 | response header names lie within the seven allowlisted names; each one other than Cache-Control is present iff its upstream value is non-empty, and then carries it; Cache-Control is always present, equal to the upstream value when non-empty and to `public, max-age=300` otherwise |
| `Proxy.FilterResponse` | workers-site/index.js:142-150 | status and status text are the upstream's; the loop-built headers are exactly `FilteredResponseHeaders` of the upstream headers |
| `Site.Secured` | workers-site/index.js:58-62 | the five security headers read back their fixed values whatever the page had; the stored names are the page's plus the five; every other entry, and every lookup of another name, is unchanged |
| `Site.SecureAsset` | workers-site/index.js:56-64 | the asset response keeps the page's status, status text and body, and its in-place updated headers object ends as `Secured` of the page's headers |
| `Site.NotFoundTargetIgnoresPath` | workers-site/index.js:70-72 | every failed page of one origin falls back to the same `/404.html` request, whatever its path and query string |
| `Site.Recover` | workers-site/index.js:66-78 | status is 404 iff DEBUG is off and the `/404.html` lookup succeeds, and then the response is that page with status 404; otherwise exactly the 500 response (empty status text, no headers, the ORIGINAL error's message or string form as body), whether DEBUG is on or the fallback lookup threw |
| `Site.HandleEvent` | workers-site/index.js:46-78 | proxied iff the routing predicate holds, with the outbound init and filtered response given by the two reference functions applied to the request and to what `fetch` returns; a found asset is served with `Secured` headers; a failed one goes through `Recover`; the asset store is asked for the request alone, and also for `/404.html` exactly when the first lookup threw and DEBUG is off |

## Left out

- `getAssetFromKV` and `mapRequestToAsset` (the external asset handler) are modelled only as the outcome `Found(page)` or `Thrown(error)` of a lookup, through the `assets` parameter. Its key mapping, caching and content types are not part of this model.
- `fetch` and the body streams: the upstream answer is the `fetch` parameter's result (status, status text, headers). Bodies are passed through unchanged and are not modelled beyond the `body` of an asset page.
- The `addEventListener` wrapper and its `try`/`catch` (lines 12-25). `handleEvent` is async, so that catch only sees synchronous throws, and the "Internal Error" response is never produced for a request.
- A rejected upstream fetch: `proxyRequest` is returned without `await` (line 50), so the catch at line 66 never sees its failure. The model's `fetch` always answers, and there is no upstream-failure 500.
- The `return response` for a falsy `fetch` result (line 155): `fetch` never resolves to a falsy value.
- `handlePrefix` (lines 89-101): it is unused, because the call to it is commented out.
- `console.log`, the unused `accept` lookup, and the commented-out `cf` cache settings. None of them changes a response.
- The DEBUG `cacheControl.bypassCache` option (lines 40-45) makes the asset store skip its edge cache. `assets` is the same function whatever DEBUG is, so a cached answer and a fresh one are not told apart.
- The headers that `new Response` adds by itself, such as `content-type` for a string body. The 500 page is modelled with no headers.
- `Site.Recover`: the 404 response is modelled as the fallback page with only its status replaced, as `{ ...notFoundResponse, status: 404 }` intends. Whether spreading a platform `Response` really copies its status text and headers depends on the runtime's property layout, which is not part of this model.
- How the platform turns the plain header objects into a `Headers` collection: `Proxy.BuildOutbound` and `Proxy.FilterResponse` describe the objects the worker builds, with names spelled as the worker writes them.
- Async scheduling: each request is handled on its own, with no shared state.
