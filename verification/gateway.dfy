/**
 * `handleProxy` of the two negotiating workers: parse the target, apply the access rules, resolve the
 * protocol, build the upstream headers, fetch, and downgrade once to http when an automatically chosen
 * https fails. Each `fetch` is an input: what the first request did and what the retry would do.
 */
module Gateway {
  import opened Wrappers
  import opened Strings
  import opened Target
  import opened Access
  import opened Redirect
  import opened Negotiator
  import opened HeaderPolicy

  /** What a `fetch` did: a response with its status and (lower-cased) headers, or a thrown error. */
  datatype FetchOutcome = Responded(status: int, headers: map<string, string>) | Threw

  predicate LowerOutcome(o: FetchOutcome) {
    o.Responded? ==> LowerNames(o.headers)
  }

  /** The Cloudflare statuses that signal a failed TLS handshake with the origin. */
  const SslErrorStatuses: set<int> := {525, 526, 527}

  /** `protocol + '://' + parsed.host + parsed.path + parsed.search`. */
  function TargetUrl(t: Target, protocol: Scheme): string {
    protocol.Name() + "://" + t.host + t.path + t.search
  }

  /** The condition of both downgrade branches: https chosen by the gateway, and the first fetch threw or hit a TLS error. */
  predicate Downgrades(protocol: Scheme, hint: Option<Scheme>, first: FetchOutcome) {
    protocol == Https && hint.None? && (first.Threw? || first.status in SslErrorStatuses)
  }

  /** How forwarding ended: `headersProto` is the `X-Forwarded-Proto` the final request carried. */
  datatype Forward =
    | Forwarded(protocol: Scheme, status: int, headers: map<string, string>, fetches: nat, headersProto: Scheme)
    | FetchFailed
    | RetryThrew

  /** The fetch and downgrade part of `handleProxy`, for the resolved `protocol`. */
  function ForwardOutcome(protocol: Scheme, hint: Option<Scheme>, first: FetchOutcome, retry: FetchOutcome): Forward {
    match first
    case Threw =>
      if protocol == Https && hint.None? then
        match retry
        case Threw => RetryThrew
        case Responded(s, h) => Forwarded(Http, s, h, 2, protocol)
      else FetchFailed
    case Responded(s, h) =>
      if s in SslErrorStatuses && protocol == Https && hint.None? then
        match retry
        case Threw => RetryThrew
        case Responded(s2, h2) => Forwarded(Http, s2, h2, 2, Http)
      else Forwarded(protocol, s, h, 1, protocol)
  }

  /** At most one retry; it happens exactly when `Downgrades` holds, and it is always over http. */
  lemma AtMostOneRetry(protocol: Scheme, hint: Option<Scheme>, first: FetchOutcome, retry: FetchOutcome)
    ensures var f := ForwardOutcome(protocol, hint, first, retry);
      && (f.Forwarded? ==> 1 <= f.fetches <= 2)
      && (f.Forwarded? ==> (f.fetches == 2 <==> Downgrades(protocol, hint, first)))
      && (f.Forwarded? && f.fetches == 2 ==> f.protocol == Http && retry.Responded? && f.status == retry.status)
      && (f.Forwarded? && f.fetches == 1 ==> f.protocol == protocol && first.Responded? && f.status == first.status)
      && (f.RetryThrew? ==> Downgrades(protocol, hint, first) && retry.Threw?)
      && (f.FetchFailed? <==> first.Threw? && !Downgrades(protocol, hint, first))
  {
  }

  /** With a user hint the first answer is final: a thrown fetch is a 502 and a TLS-error status is passed on. */
  lemma HintNeverRetries(protocol: Scheme, hint: Option<Scheme>, first: FetchOutcome, retry: FetchOutcome)
    requires hint.Some?
    ensures var f := ForwardOutcome(protocol, hint, first, retry);
      && (first.Threw? ==> f == FetchFailed)
      && (first.Responded? ==> f == Forwarded(protocol, first.status, first.headers, 1, protocol))
  {
  }

  /**
   * The two downgrade paths differ in the header they send: after a TLS-error status the retry says
   * `X-Forwarded-Proto: http`, after a thrown fetch it still says https.
   */
  lemma RetryForwardedProto(protocol: Scheme, hint: Option<Scheme>, first: FetchOutcome, retry: FetchOutcome)
    requires Downgrades(protocol, hint, first) && retry.Responded?
    ensures var f := ForwardOutcome(protocol, hint, first, retry);
      && f.Forwarded? && f.protocol == Http
      && (first.Threw? ==> f.headersProto == Https)
      && (first.Responded? ==> f.headersProto == Http)
  {
  }

  /** What the client gets from `handleProxy`. */
  datatype Reply =
    | ShowHome                                          // no target: the home page
    | ShowBlocked(host: string, hostname: string)       // `blockedPage`, status 403
    | DenyDomain                                        // `Domain not allowed`, status 403
    | BadGateway                                        // `Connection failed`, status 502
    | Unhandled                                         // the retry fetch threw; the returned promise rejects
    | Proxied(status: int, protocol: Scheme, url: string, upstreamHeaders: map<string, string>,
              responseHeaders: map<string, string>)

  /** The reply and what is left in the protocol cache. */
  datatype Handled = Handled(reply: Reply, memory: map<string, Entry>, kvWrites: seq<KvWrite>)

  /**
   * `handleProxy` as a function of the cache and the collaborators: `now` / `stamp` are the clock readings
   * of `resolveProtocol`, `downgradeStamp` the one of the downgrade's `setCache`.
   */
  function HandleSpec(memory: map<string, Entry>, pathname: string, search: string, request: map<string, string>,
                      allowedDomains: seq<string>, origin: string, parse: string -> Option<Url>,
                      now: int, stamp: int, kv: Option<Scheme>, probe: ProbeOutcome,
                      first: FetchOutcome, retry: FetchOutcome, downgradeStamp: int): Handled
    requires SoundParser(parse)
  {
    match ParseTarget(pathname, search)
    case None => Handled(ShowHome, memory, [])
    case Some(t) =>
      match Decide(t.hostname, allowedDomains)
      case BlockedPage => Handled(ShowBlocked(t.host, t.hostname), memory, [])
      case NotAllowed => Handled(DenyDomain, memory, [])
      case Pass => ProxySpec(memory, t, request, origin, parse, now, stamp, kv, probe, first, retry, downgradeStamp)
  }

  /** The part of `handleProxy` after the access checks pass. */
  function ProxySpec(memory: map<string, Entry>, t: Target, request: map<string, string>,
                     origin: string, parse: string -> Option<Url>,
                     now: int, stamp: int, kv: Option<Scheme>, probe: ProbeOutcome,
                     first: FetchOutcome, retry: FetchOutcome, downgradeStamp: int): Handled
    requires SoundParser(parse)
  {
    var r := Resolve(memory, t.hostname, t.port, t.userProtocol, now, stamp, kv, probe);
    var isMedia := MediaRequest(t.path, request);
    var down := Downgrades(r.protocol, t.userProtocol, first);
    var mem := if down then Store(r.memory, t.hostname, t.port, Http, downgradeStamp) else r.memory;
    var writes := r.kvWrites + if down then [StoreWrite(t.hostname, t.port, Http)] else [];
    var f := ForwardOutcome(r.protocol, t.userProtocol, first, retry);
    Handled(ReplyOf(t, request, r.protocol, isMedia, f, origin, parse), mem, writes)
  }

  /** The reply for a forwarding outcome: `processResponse` over the final response. */
  function ReplyOf(t: Target, request: map<string, string>, resolved: Scheme, isMedia: bool, f: Forward,
                   origin: string, parse: string -> Option<Url>): Reply
    requires SoundParser(parse)
  {
    match f
    case FetchFailed => BadGateway
    case RetryThrew => Unhandled
    case Forwarded(p, status, headers, _, xfp) =>
      Proxied(status, p, TargetUrl(t, p),
              ForwardedHeaders(request, t.host, resolved, isMedia)["x-forwarded-proto" := xfp.Name()],
              ResponseHeaders(headers, status, request, t.path, t.host, p, isMedia, origin, parse))
  }

  /** `handleProxy(request, url, clientCountry)` against the module-level cache. */
  method HandleProxy(cache: ProtocolCache, pathname: string, search: string, request: map<string, string>,
                     allowedDomains: seq<string>, origin: string, parse: string -> Option<Url>,
                     now: int, stamp: int, kv: Option<Scheme>, probe: ProbeOutcome,
                     first: FetchOutcome, retry: FetchOutcome, downgradeStamp: int)
    returns (reply: Reply)
    requires LowerNames(request) && SoundParser(parse) && LowerOutcome(first) && LowerOutcome(retry)
    modifies cache
    ensures var h := HandleSpec(old(cache.memory), pathname, search, request, allowedDomains, origin, parse,
                                now, stamp, kv, probe, first, retry, downgradeStamp);
      && reply == h.reply && cache.memory == h.memory && cache.kvWrites == old(cache.kvWrites) + h.kvWrites
  {
    var parsed := ParseTarget(pathname, search);
    if parsed.None? {
      return ShowHome;
    }
    var t := parsed.value;
    var verdict := CheckAccess(t.hostname, allowedDomains);
    if verdict == BlockedPage {
      return ShowBlocked(t.host, t.hostname);
    }
    if verdict == NotAllowed {
      return DenyDomain;
    }
    reply := Proxy(cache, t, request, origin, parse, now, stamp, kv, probe, first, retry, downgradeStamp);
  }

  /** Resolve, classify, build the upstream headers, fetch with downgrade, and process the response. */
  method Proxy(cache: ProtocolCache, t: Target, request: map<string, string>, origin: string, parse: string -> Option<Url>,
               now: int, stamp: int, kv: Option<Scheme>, probe: ProbeOutcome,
               first: FetchOutcome, retry: FetchOutcome, downgradeStamp: int)
    returns (reply: Reply)
    requires LowerNames(request) && SoundParser(parse) && LowerOutcome(first) && LowerOutcome(retry)
    modifies cache
    ensures var h := ProxySpec(old(cache.memory), t, request, origin, parse, now, stamp, kv, probe, first, retry, downgradeStamp);
      && reply == h.reply && cache.memory == h.memory && cache.kvWrites == old(cache.kvWrites) + h.kvWrites
  {
    ghost var r := Resolve(cache.memory, t.hostname, t.port, t.userProtocol, now, stamp, kv, probe);
    var protocol, _ := cache.ResolveProtocol(t.hostname, t.port, t.userProtocol, now, stamp, kv, probe);
    assert protocol == r.protocol && cache.memory == r.memory;
    ghost var resolvedWrites := cache.kvWrites;
    assert resolvedWrites == old(cache.kvWrites) + r.kvWrites;
    var isMedia := IsMediaRequest(t.path, request);
    var headers := BuildHeaders(request, t.host, protocol, isMedia);
    ForwardedProtoSet(request, t.host, protocol, isMedia);
    ghost var down := Downgrades(r.protocol, t.userProtocol, first);
    ghost var extra := if down then [StoreWrite(t.hostname, t.port, Http)] else [];
    var f := FetchWithDowngrade(cache, headers, t, protocol, first, retry, downgradeStamp);
    assert f == ForwardOutcome(r.protocol, t.userProtocol, first, retry);
    assert cache.kvWrites == resolvedWrites + extra;
    assert cache.kvWrites == old(cache.kvWrites) + (r.kvWrites + extra);
    reply := Respond(t, request, protocol, isMedia, f, headers.entries, origin, parse);
    ProxySpecParts(old(cache.memory), t, request, origin, parse, now, stamp, kv, probe, first, retry, downgradeStamp);
  }

  /** `ProxySpec` in terms of its steps, for the proof of `Proxy`. */
  lemma ProxySpecParts(memory: map<string, Entry>, t: Target, request: map<string, string>,
                       origin: string, parse: string -> Option<Url>,
                       now: int, stamp: int, kv: Option<Scheme>, probe: ProbeOutcome,
                       first: FetchOutcome, retry: FetchOutcome, downgradeStamp: int)
    requires SoundParser(parse)
    ensures var r := Resolve(memory, t.hostname, t.port, t.userProtocol, now, stamp, kv, probe);
      var h := ProxySpec(memory, t, request, origin, parse, now, stamp, kv, probe, first, retry, downgradeStamp);
      var down := Downgrades(r.protocol, t.userProtocol, first);
      && h.reply == ReplyOf(t, request, r.protocol, MediaRequest(t.path, request), ForwardOutcome(r.protocol, t.userProtocol, first, retry), origin, parse)
      && h.memory == (if down then Store(r.memory, t.hostname, t.port, Http, downgradeStamp) else r.memory)
      && h.kvWrites == r.kvWrites + (if down then [StoreWrite(t.hostname, t.port, Http)] else [])
  {
  }

  lemma ForwardedProtoSet(request: map<string, string>, targetHost: string, protocol: Scheme, isMedia: bool)
    ensures var h := ForwardedHeaders(request, targetHost, protocol, isMedia);
      "x-forwarded-proto" in h && h["x-forwarded-proto"] == protocol.Name()
  {
  }

  /** The end of `handleProxy`: a 502, a rejection, or `processResponse` over the final response. */
  method Respond(t: Target, request: map<string, string>, resolved: Scheme, isMedia: bool, f: Forward,
                 sent: map<string, string>, origin: string, parse: string -> Option<Url>)
    returns (reply: Reply)
    requires SoundParser(parse) && (f.Forwarded? ==> LowerNames(f.headers))
    requires f.Forwarded? ==> sent == ForwardedHeaders(request, t.host, resolved, isMedia)["x-forwarded-proto" := f.headersProto.Name()]
    ensures reply == ReplyOf(t, request, resolved, isMedia, f, origin, parse)
  {
    match f
    case FetchFailed => reply := BadGateway;
    case RetryThrew => reply := Unhandled;
    case Forwarded(p, status, responseHeaders, _, _) =>
      var processed := ProcessResponseHeaders(responseHeaders, status, request, t.path, t.host, p, isMedia, origin, parse);
      reply := Proxied(status, p, TargetUrl(t, p), sent, processed.entries);
  }

  /** The two `fetch` steps of `handleProxy` and its two downgrade branches. */
  method FetchWithDowngrade(cache: ProtocolCache, headers: Headers, t: Target, resolved: Scheme,
                            first: FetchOutcome, retry: FetchOutcome, downgradeStamp: int)
    returns (f: Forward)
    requires "x-forwarded-proto" in headers.entries && headers.entries["x-forwarded-proto"] == resolved.Name()
    requires LowerOutcome(first) && LowerOutcome(retry)
    modifies cache, headers
    ensures f == ForwardOutcome(resolved, t.userProtocol, first, retry)
    ensures f.Forwarded? ==> LowerNames(f.headers)
    ensures Downgrades(resolved, t.userProtocol, first) ==>
      && cache.memory == Store(old(cache.memory), t.hostname, t.port, Http, downgradeStamp)
      && cache.kvWrites == old(cache.kvWrites) + [StoreWrite(t.hostname, t.port, Http)]
    ensures !Downgrades(resolved, t.userProtocol, first) ==> cache.memory == old(cache.memory) && cache.kvWrites == old(cache.kvWrites)
    ensures f.Forwarded? ==> headers.entries == old(headers.entries)["x-forwarded-proto" := f.headersProto.Name()]
  {
    var response := first;
    var protocol := resolved;
    var fetches := 1;
    var forwardedProto := resolved;
    if first.Threw? {
      if protocol == Https && t.userProtocol.None? {
        cache.SetCache(t.hostname, t.port, Http, downgradeStamp);
        if retry.Threw? {
          return RetryThrew;
        }
        response := retry;
        protocol := Http;
        fetches := 2;
      } else {
        return FetchFailed;
      }
    }
    if response.status in SslErrorStatuses && protocol == Https && t.userProtocol.None? {
      cache.SetCache(t.hostname, t.port, Http, downgradeStamp);
      ToLowerOfLower("x-forwarded-proto");
      headers.Set("x-forwarded-proto", "http");
      forwardedProto := Http;
      if retry.Threw? {
        return RetryThrew;
      }
      response := retry;
      protocol := Http;
      fetches := 2;
    }
    f := Forwarded(protocol, response.status, response.headers, fetches, forwardedProto);
  }

  // ------------------------------------------------------------------ properties of handleProxy

  /** No target, a blocked host or a host outside the whitelist: answered without resolving, fetching or touching the cache. */
  lemma RejectedBeforeResolving(memory: map<string, Entry>, pathname: string, search: string, request: map<string, string>,
                                allowedDomains: seq<string>, origin: string, parse: string -> Option<Url>,
                                now: int, stamp: int, kv: Option<Scheme>, probe: ProbeOutcome,
                                first: FetchOutcome, retry: FetchOutcome, downgradeStamp: int)
    requires SoundParser(parse)
    ensures var h := HandleSpec(memory, pathname, search, request, allowedDomains, origin, parse,
                                now, stamp, kv, probe, first, retry, downgradeStamp);
      var parsed := ParseTarget(pathname, search);
      && (parsed.None? ==> h == Handled(ShowHome, memory, []))
      && (parsed.Some? && Blocked(parsed.value.hostname) ==>
            h == Handled(ShowBlocked(parsed.value.host, parsed.value.hostname), memory, []))
      && (parsed.Some? && !Blocked(parsed.value.hostname) && !Whitelisted(parsed.value.hostname, allowedDomains) ==>
            h == Handled(DenyDomain, memory, []))
  {
    match ParseTarget(pathname, search)
    case None =>
    case Some(t) => DecidePrecedence(t.hostname, allowedDomains);
  }

  /** A proxied reply reports the protocol it actually used, in the URL it fetched and in `X-Proxy-Protocol`. */
  lemma ProxiedReportsProtocol(memory: map<string, Entry>, t: Target, request: map<string, string>,
                               origin: string, parse: string -> Option<Url>,
                               now: int, stamp: int, kv: Option<Scheme>, probe: ProbeOutcome,
                               first: FetchOutcome, retry: FetchOutcome, downgradeStamp: int)
    requires SoundParser(parse)
    ensures var reply := ProxySpec(memory, t, request, origin, parse, now, stamp, kv, probe, first, retry, downgradeStamp).reply;
      reply.Proxied? ==>
        && reply.url == TargetUrl(t, reply.protocol)
        && "x-proxy-protocol" in reply.responseHeaders && reply.responseHeaders["x-proxy-protocol"] == reply.protocol.Name()
        && "host" in reply.upstreamHeaders && reply.upstreamHeaders["host"] == t.host
        && (t.userProtocol.Some? ==> reply.protocol == t.userProtocol.value)
  {
    var r := Resolve(memory, t.hostname, t.port, t.userProtocol, now, stamp, kv, probe);
    var isMedia := MediaRequest(t.path, request);
    var f := ForwardOutcome(r.protocol, t.userProtocol, first, retry);
    ResolvePrecedence(memory, t.hostname, t.port, t.userProtocol, now, stamp, kv, probe);
    if f.Forwarded? {
      ForwardedHeadersPolicy(request, t.host, r.protocol, isMedia);
      var filtered := FilteredResponseHeaders(f.headers, PassThrough(f.headers, t.path, isMedia));
      CorsPolicy(filtered, request, f.protocol);
      LocationPolicy(WithCors(filtered, request, f.protocol), f.headers, f.status, t.host, f.protocol, origin, parse);
    }
  }

  /**
   * After a downgrade the cache says http for the target, so every later request within the TTL (without a
   * hint, on a port other than 443 and 80) goes straight to http.
   */
  lemma DowngradeRemembered(memory: map<string, Entry>, t: Target, request: map<string, string>,
                            origin: string, parse: string -> Option<Url>,
                            now: int, stamp: int, kv: Option<Scheme>, probe: ProbeOutcome,
                            first: FetchOutcome, retry: FetchOutcome, downgradeStamp: int,
                            now2: int, stamp2: int, kv2: Option<Scheme>, probe2: ProbeOutcome)
    requires SoundParser(parse)
    requires t.port !in {Some(443), Some(80)}
    requires Downgrades(Resolve(memory, t.hostname, t.port, t.userProtocol, now, stamp, kv, probe).protocol, t.userProtocol, first)
    requires now2 - downgradeStamp < ProtocolCacheTtl * 1000
    ensures var h := ProxySpec(memory, t, request, origin, parse, now, stamp, kv, probe, first, retry, downgradeStamp);
      && h.memory[CacheKey(t.hostname, t.port)] == Entry(Http, downgradeStamp)
      && h.kvWrites[|h.kvWrites| - 1] == KvWrite(KvKey(t.hostname, t.port), Http, ProtocolCacheTtl)
      && Resolve(h.memory, t.hostname, t.port, None, now2, stamp2, kv2, probe2).protocol == Http
  {
  }

  /**
   * On port 443 the cache is never read, so a downgrade is not remembered: the next request without a hint
   * tries https again, whatever the cache holds.
   */
  lemma Port443DowngradeForgotten(memory: map<string, Entry>, hostname: string, now: int, stamp: int,
                                  kv: Option<Scheme>, probe: ProbeOutcome, downgradeStamp: int)
    ensures Resolve(Store(memory, hostname, Some(443), Http, downgradeStamp), hostname, Some(443), None,
                    now, stamp, kv, probe).protocol == Https
  {
  }
  // ------------------------------------------------------------------ handleRequest around handleProxy

  /** What the client of `handleRequest` receives: a response with a status, or the platform's error page. */
  datatype Answer = Status(code: int) | Rejected

  /**
   * `handleRequest` on a proxied path: `return handleProxy(…)` inside a `try` whose `catch` answers 500.
   * As written (`awaited` false) the promise is returned without `await`, so its rejection passes the
   * `catch` by; `awaited` is the evidently intended `return await handleProxy(…)`.
   */
  function RequestAnswer(r: Reply, awaited: bool): Answer {
    match r
    case ShowHome => Status(200)
    case ShowBlocked(_, _) => Status(403)
    case DenyDomain => Status(403)
    case BadGateway => Status(502)
    case Unhandled => if awaited then Status(500) else Rejected
    case Proxied(status, _, _, _, _) => Status(status)
  }

  /**
   * As written, a downgrade whose http retry also throws is never answered by the gateway: the `catch` of
   * `handleRequest` does not see the rejected promise, although it would turn it into a 500.
   */
  lemma RetryRejectionEscapes(memory: map<string, Entry>, t: Target, request: map<string, string>,
                              origin: string, parse: string -> Option<Url>,
                              now: int, stamp: int, kv: Option<Scheme>, probe: ProbeOutcome,
                              first: FetchOutcome, retry: FetchOutcome, downgradeStamp: int)
    requires SoundParser(parse)
    requires Downgrades(Resolve(memory, t.hostname, t.port, t.userProtocol, now, stamp, kv, probe).protocol, t.userProtocol, first)
    requires retry.Threw?
    ensures var reply := ProxySpec(memory, t, request, origin, parse, now, stamp, kv, probe, first, retry, downgradeStamp).reply;
      && RequestAnswer(reply, false) == Rejected
      && RequestAnswer(reply, true) == Status(500)
  {
  }

  /**
   * With the `await`, every reply of `handleProxy` becomes a status from the gateway: the same one as before wherever the
   * gateway answered, and 500 exactly where it used to be rejected.
   */
  lemma AwaitedAlwaysAnswers(reply: Reply)
    ensures RequestAnswer(reply, true).Status?
    ensures RequestAnswer(reply, false).Status? ==> RequestAnswer(reply, true) == RequestAnswer(reply, false)
    ensures RequestAnswer(reply, false) == Rejected <==> reply.Unhandled?
    ensures reply.Unhandled? ==> RequestAnswer(reply, true) == Status(500)
  {
  }
}
