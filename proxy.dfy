/** `proxyRequest`: the outbound request carries only allowlisted request
    headers, and the response handed back carries only allowlisted upstream
    headers plus a default Cache-Control. */
module Proxy {
  import opened Fetch

  /** Request headers that may cross to the upstream, in the order they are copied. */
  const RequestAllowlist: seq<string> := ["Accept", "Accept-Encoding", "Accept-Language", "Referer", "User-Agent"]

  /** The platform-supplied address of the connecting client. */
  const ClientAddressHeader: string := "cf-connecting-ip"

  /** The header under which that address is passed upstream. */
  const ForwardedForHeader: string := "X-Forwarded-For"

  /** Upstream response headers that may cross back to the client, in the order they are copied. */
  const ResponseAllowlist: seq<string> := ["Content-Type", "Cache-Control", "Expires", "Accept-Ranges", "Date", "Last-Modified", "ETag"]

  const CacheControlHeader: string := "Cache-Control"

  /** The Cache-Control value a response starts with before the upstream headers are copied. */
  const DefaultCacheControl: string := "public, max-age=300"

  /** The `init` given to `fetch`: the copied method and a plain header object
      whose names are spelled exactly as the worker writes them. */
  datatype OutboundInit = OutboundInit(verb: string, headers: map<string, string>)

  /** What `fetch` resolves to, without its body. */
  datatype Upstream = Upstream(status: int, statusText: string, headers: HeaderMap)

  /** The `responseInit` the filtered response is built from. */
  datatype ResponseInit = ResponseInit(status: int, statusText: string, headers: map<string, string>)

  /** `name` is in `out` exactly when `value` is truthy, and then carries `value`. */
  predicate CopiedIfTruthy(out: map<string, string>, name: string, value: string) {
    && (name in out <==> Truthy(value))
    && (name in out ==> out[name] == value)
  }

  /** Reference definition of the outbound headers: the allowlisted request
      headers with a truthy value, and X-Forwarded-For from the client address. */
  function ForwardedRequestHeaders(h: HeaderMap): (out: map<string, string>)
    ensures forall name :: name in out ==> name in RequestAllowlist || name == ForwardedForHeader
    ensures forall name :: name in RequestAllowlist ==> CopiedIfTruthy(out, name, Get(h, name))
    ensures CopiedIfTruthy(out, ForwardedForHeader, Get(h, ClientAddressHeader))
  {
    var copied := map name | name in RequestAllowlist && Truthy(Get(h, name)) :: Get(h, name);
    var addr := Get(h, ClientAddressHeader);
    if Truthy(addr) then copied[ForwardedForHeader := addr] else copied
  }

  /** Reference definition of the filtered response headers: the default
      Cache-Control, overridden by every allowlisted upstream header with a
      truthy value. */
  function FilteredResponseHeaders(h: HeaderMap): (out: map<string, string>)
    ensures forall name :: name in out ==> name in ResponseAllowlist
    ensures forall name :: name in ResponseAllowlist && name != CacheControlHeader ==> CopiedIfTruthy(out, name, Get(h, name))
    ensures CacheControlHeader in out
    ensures out[CacheControlHeader] == if Truthy(Get(h, CacheControlHeader)) then Get(h, CacheControlHeader) else DefaultCacheControl
  {
    map[CacheControlHeader := DefaultCacheControl]
      + map name | name in ResponseAllowlist && Truthy(Get(h, name)) :: Get(h, name)
  }

  /** The names of `names[..i]` whose value in `h` is truthy, each with that value. */
  function CopiedPrefix(names: seq<string>, i: nat, h: HeaderMap): map<string, string>
    requires i <= |names|
  {
    map name | name in names[..i] && Truthy(Get(h, name)) :: Get(h, name)
  }

  /** One more iteration of a copy loop adds the next name exactly when its value is truthy. */
  lemma CopiedPrefixStep(names: seq<string>, i: nat, h: HeaderMap)
    requires i < |names|
    ensures CopiedPrefix(names, i + 1, h)
            == if Truthy(Get(h, names[i])) then CopiedPrefix(names, i, h)[names[i] := Get(h, names[i])]
               else CopiedPrefix(names, i, h)
  {
  }

  /** Writing a name into a header object that started from `base` is
      writing it into what was copied on top of `base`. */
  lemma OverrideUpdate(base: map<string, string>, copied: map<string, string>, name: string, value: string)
    ensures (base + copied)[name := value] == base + copied[name := value]
  {
  }

  /** After the last iteration every name of the list has been considered. */
  lemma CopiedPrefixAll(names: seq<string>, h: HeaderMap)
    ensures CopiedPrefix(names, |names|, h) == map name | name in names && Truthy(Get(h, name)) :: Get(h, name)
  {
  }

  /** Builds the outbound `init` (lines 106-130): method copied, then the
      allowlisted headers one by one, then X-Forwarded-For. */
  method BuildOutbound(req: Request) returns (init: OutboundInit)
    ensures init.verb == req.verb
    ensures init.headers == ForwardedRequestHeaders(req.headers)
  {
    var headers: map<string, string> := map[];
    for i := 0 to |RequestAllowlist|
      invariant headers == CopiedPrefix(RequestAllowlist, i, req.headers)
    {
      var name := RequestAllowlist[i];
      var value := Get(req.headers, name);
      CopiedPrefixStep(RequestAllowlist, i, req.headers);
      if Truthy(value) {
        headers := headers[name := value];
      }
    }
    CopiedPrefixAll(RequestAllowlist, req.headers);
    var clientAddr := Get(req.headers, ClientAddressHeader);
    if Truthy(clientAddr) {
      headers := headers[ForwardedForHeader := clientAddr];
    }
    init := OutboundInit(req.verb, headers);
  }

  /** Builds the `responseInit` (lines 135-150): status and status text
      copied, Cache-Control defaulted, then the allowlisted upstream headers
      one by one. */
  method FilterResponse(up: Upstream) returns (r: ResponseInit)
    ensures r.status == up.status && r.statusText == up.statusText
    ensures r.headers == FilteredResponseHeaders(up.headers)
  {
    var headers: map<string, string> := map[CacheControlHeader := DefaultCacheControl];
    for i := 0 to |ResponseAllowlist|
      invariant headers == map[CacheControlHeader := DefaultCacheControl] + CopiedPrefix(ResponseAllowlist, i, up.headers)
    {
      var name := ResponseAllowlist[i];
      var value := Get(up.headers, name);
      CopiedPrefixStep(ResponseAllowlist, i, up.headers);
      if Truthy(value) {
        OverrideUpdate(map[CacheControlHeader := DefaultCacheControl], CopiedPrefix(ResponseAllowlist, i, up.headers), name, value);
        headers := headers[name := value];
      }
    }
    CopiedPrefixAll(ResponseAllowlist, up.headers);
    r := ResponseInit(up.status, up.statusText, headers);
  }
}
