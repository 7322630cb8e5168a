/**
 * The Node.js path-prefix proxy: a request for `/<host[:port]>/<path>` is forwarded to `http://<host[:port]>` or
 * `https://<host[:port]>` with `req.url` rewritten to `/<path>`; the same split serves WebSocket upgrades. The
 * forwarding itself (`http-proxy`) and the WHATWG URL parser are outside the model: the hostname the parser
 * extracts from the target is a parameter.
 */
module NodeProxy {
  import opened Wrappers
  import opened Strings
  import Access

  /** The part of Node's `IncomingMessage` the handlers rewrite. */
  class IncomingMessage {
    var url: string

    constructor(url: string)
      ensures this.url == url
    {
      this.url := url;
    }
  }

  /** The header object of an upstream response, which the `proxyRes` handler edits in place. */
  class ProxyResponse {
    var headers: map<string, string>

    constructor(headers: map<string, string>)
      ensures this.headers == headers
    {
      this.headers := headers;
    }

    /** The `proxyRes` handler: delete every listed header, then allow every origin. */
    method OnProxyRes()
      modifies this
      ensures headers == CleanHeaders(old(headers))
    {
      var i := 0;
      while i < |RemoveHeaders|
        invariant 0 <= i <= |RemoveHeaders|
        invariant headers == old(headers) - (set x | x in RemoveHeaders[..i])
      {
        headers := headers - {RemoveHeaders[i]};
        i := i + 1;
      }
      assert RemoveHeaders[..i] == RemoveHeaders;
      headers := headers[AllowOrigin := "*"];
    }
  }

  const RemoveHeaders: seq<string> := ["content-security-policy", "x-frame-options"]
  const AllowOrigin: string := "Access-Control-Allow-Origin"

  /** What becomes of a request. */
  datatype Outcome =
    | StatusPage                          // 200 with the status page
    | Forward(target: string)             // handed to the proxy with the rewritten `req.url`
    | Forbidden                           // 403 `Domain Blocked`
    | Unhandled                           // `new URL(target)` threw; the handler's promise rejects

  // ---------------------------------------------------------------- the path split

  /** `req.url.slice(1)`. */
  function UrlPath(url: string): string {
    if url == [] then [] else url[1..]
  }

  /** Text before the first `/` of the path: the target host and port. */
  function HostPart(urlPath: string): string {
    var i := FirstIndex(urlPath, '/');
    if i == -1 then urlPath else urlPath[..i]
  }

  /** The rest of the path from its first `/` on, or empty. */
  function RemainPath(urlPath: string): string {
    var i := FirstIndex(urlPath, '/');
    if i == -1 then "" else urlPath[i..]
  }

  /** `hostPart.includes('443') ? 'https://' : 'http://'`. */
  function Protocol(hostPart: string): string {
    if Contains(hostPart, "443") then "https://" else "http://"
  }

  function TargetUrl(url: string): string {
    var host := HostPart(UrlPath(url));
    Protocol(host) + host
  }

  /** The request handler's new `req.url`: `remainPath || '/'`. */
  function ForwardPath(url: string): string {
    var rest := RemainPath(UrlPath(url));
    if rest == "" then "/" else rest
  }

  /** The upgrade handler's new `req.url`: `/` when there is no slash, the rest of the path otherwise. */
  function UpgradePath(url: string): string {
    var p := UrlPath(url);
    var i := FirstIndex(p, '/');
    if i == -1 then "/" else p[i..]
  }

  predicate IsHome(url: string) {
    url == "/" || url == ""
  }

  /** What the request handler does with `url`, given what the URL parser makes of the target. */
  function RequestOutcome(url: string, hostnameOf: string -> Option<string>): Outcome {
    if IsHome(url) then StatusPage
    else
      var target := TargetUrl(url);
      match hostnameOf(target)
      case None => Unhandled
      case Some(h) => if Access.NodeBlocked(h) then Forbidden else Forward(target)
  }

  /** The request handler. */
  method HandleRequest(req: IncomingMessage, hostnameOf: string -> Option<string>) returns (out: Outcome)
    modifies req
    ensures out == RequestOutcome(old(req.url), hostnameOf)
    ensures req.url == if IsHome(old(req.url)) then old(req.url) else ForwardPath(old(req.url))
  {
    var urlPath := UrlPath(req.url);
    if req.url == "/" || req.url == "" {
      return StatusPage;
    }
    var firstSlash := FirstIndex(urlPath, '/');
    var hostPart := if firstSlash == -1 then urlPath else urlPath[..firstSlash];
    var remainPath := if firstSlash == -1 then "" else urlPath[firstSlash..];
    var protocol := if Contains(hostPart, "443") then "https://" else "http://";
    var targetUrl := protocol + hostPart;
    req.url := if remainPath == "" then "/" else remainPath;
    var hostname := hostnameOf(targetUrl);
    if hostname.None? {
      return Unhandled;
    }
    var blocked := false;
    var k := 0;
    while k < |Access.NodeBlockedDomains|
      invariant 0 <= k <= |Access.NodeBlockedDomains|
      invariant blocked <==> exists j | 0 <= j < k :: EndsWith(hostname.value, Access.NodeBlockedDomains[j])
    {
      if EndsWith(hostname.value, Access.NodeBlockedDomains[k]) {
        blocked := true;
      }
      k := k + 1;
    }
    if blocked {
      return Forbidden;
    }
    return Forward(targetUrl);
  }

  /** The upgrade handler: the same split, no status page and no block list. */
  method HandleUpgrade(req: IncomingMessage) returns (target: string)
    modifies req
    ensures target == TargetUrl(old(req.url))
    ensures req.url == UpgradePath(old(req.url))
  {
    var urlPath := UrlPath(req.url);
    var firstSlash := FirstIndex(urlPath, '/');
    var hostPart := if firstSlash == -1 then urlPath else urlPath[..firstSlash];
    var protocol := if Contains(hostPart, "443") then "https://" else "http://";
    req.url := if firstSlash == -1 then "/" else urlPath[firstSlash..];
    target := protocol + hostPart;
  }

  /** What the `error` handler writes: 502 when the failed exchange has a response to write to. */
  function ErrorStatus(canWriteHead: bool): (status: Option<nat>)
    ensures status.Some? <==> canWriteHead
    ensures status.Some? ==> status.value == 502
  {
    if canWriteHead then Some(502) else None
  }

  /** What became of a forwarded exchange: the upstream answered with a status, or the proxy emitted `error`. */
  datatype Exchange = Upstream(status: nat) | ProxyFailed

  /**
   * The status the request handler's client receives, or `None` when nothing is written (the handler's
   * promise rejected). A forwarded request gets the upstream status, or, when forwarding fails, what the
   * `error` handler writes on the `ServerResponse`, which always has `writeHead`.
   */
  function ResponseStatus(url: string, hostnameOf: string -> Option<string>, ex: Exchange): Option<nat> {
    match RequestOutcome(url, hostnameOf)
    case StatusPage => Some(200)
    case Forbidden => Some(403)
    case Unhandled => None
    case Forward(_) =>
      match ex
      case Upstream(status) => Some(status)
      case ProxyFailed => ErrorStatus(true)
  }

  /**
   * A 502 reaches the client exactly when the request was forwarded and the exchange failed; the status page,
   * the 403 and the unhandled rejection do not depend on the exchange at all. A WebSocket upgrade's socket has
   * no `writeHead`, so a failed upgrade gets no status written.
   */
  lemma FailureAnswers(url: string, hostnameOf: string -> Option<string>, ex: Exchange)
    ensures var out := RequestOutcome(url, hostnameOf);
      && (ResponseStatus(url, hostnameOf, ex) == Some(502) <==>
            out.Forward? && (ex.ProxyFailed? || ex == Upstream(502)))
      && (!out.Forward? ==> ResponseStatus(url, hostnameOf, ex) == ResponseStatus(url, hostnameOf, ProxyFailed))
      && (out.Forward? && ex.Upstream? ==> ResponseStatus(url, hostnameOf, ex) == Some(ex.status))
      && (ResponseStatus(url, hostnameOf, ex).None? <==> out.Unhandled?)
      && ErrorStatus(false).None?
  {
  }

  /** The headers the `proxyRes` handler leaves. */
  function CleanHeaders(h: map<string, string>): map<string, string> {
    (h - (set x | x in RemoveHeaders))[AllowOrigin := "*"]
  }

  // ---------------------------------------------------------------- properties

  /** The status page answers exactly `/` and the empty url; nothing else gets it and it is never proxied. */
  lemma HomeNeverProxied(url: string, hostnameOf: string -> Option<string>)
    ensures RequestOutcome(url, hostnameOf) == StatusPage <==> IsHome(url)
  {
  }

  /**
   * The path splits into host part and rest: the host part has no `/`, the rest is empty or starts with
   * one, and together they give the path back. The forwarded `req.url` therefore always starts with `/`.
   */
  lemma SplitSpec(url: string)
    ensures var p := UrlPath(url);
      && HostPart(p) + RemainPath(p) == p
      && '/' !in HostPart(p)
      && (RemainPath(p) == "" || RemainPath(p)[0] == '/')
      && |ForwardPath(url)| >= 1 && ForwardPath(url)[0] == '/'
  {
    var p := UrlPath(url);
    var i := FirstIndex(p, '/');
    if i != -1 {
      assert p[..i] + p[i..] == p;
    }
  }

  /** The target is `https://` plus the host part exactly when the host part contains `443`, `http://` otherwise. */
  lemma TargetScheme(url: string)
    ensures var host := HostPart(UrlPath(url));
      && (Contains(host, "443") ==> TargetUrl(url) == "https://" + host)
      && (!Contains(host, "443") ==> TargetUrl(url) == "http://" + host)
      && (StartsWith(TargetUrl(url), "https://") <==> Contains(host, "443"))
  {
    var host := HostPart(UrlPath(url));
    if !Contains(host, "443") {
      assert !StartsWith(TargetUrl(url), "https://") by { assert TargetUrl(url)[4] == ':'; }
    }
  }

  /** Blocked hostnames get 403 and are not forwarded; other parsable targets are forwarded unchanged. */
  lemma BlockedNotForwarded(url: string, hostnameOf: string -> Option<string>)
    requires !IsHome(url)
    ensures var out := RequestOutcome(url, hostnameOf);
      var h := hostnameOf(TargetUrl(url));
      && (out == Forbidden <==> h.Some? && Access.NodeBlocked(h.value))
      && (out.Forward? <==> h.Some? && !Access.NodeBlocked(h.value))
      && (out.Forward? ==> out.target == TargetUrl(url))
  {
  }

  /** The upgrade handler splits exactly as the request handler does, including the `/` for a bare host. */
  lemma UpgradeAgrees(url: string)
    ensures UpgradePath(url) == ForwardPath(url)
  {
    var p := UrlPath(url);
    var i := FirstIndex(p, '/');
    if i != -1 {
      assert p[i..][0] == '/';
    }
  }

  /**
   * The `proxyRes` handler's result: neither listed header remains, every origin is allowed, and every other
   * header is kept as it was; editing twice changes nothing more.
   */
  lemma CleanHeadersSpec(h: map<string, string>)
    ensures var r := CleanHeaders(h);
      && (forall k :: 0 <= k < |RemoveHeaders| ==> RemoveHeaders[k] !in r)
      && AllowOrigin in r && r[AllowOrigin] == "*"
      && (forall n :: n in h && n !in RemoveHeaders && n != AllowOrigin ==> n in r && r[n] == h[n])
      && (forall n :: n in r ==> n in h || n == AllowOrigin)
      && CleanHeaders(r) == r
  {
  }
}
