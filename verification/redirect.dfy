/**
 * Rewriting of redirect `Location` headers into gateway URLs, so that the browser follows the redirect
 * through the gateway. `RewriteUrl` is `rewriteUrl` of the negotiating workers; `RewriteRedirectUrl` and
 * `BuildProxyBasePath` are the legacy worker's versions, which encode https as "no prefix".
 *
 * `new URL(loc)` is the platform's parser; its result (or its exception, `None`) is an input here, described
 * by `ValidUrl` and `ParsedFrom` as far as the rewriting reads it.
 */
module Redirect {
  import opened Wrappers
  import opened Strings
  import opened Target
  import opened Access

  /** The parts of a parsed absolute URL that the rewriting reads: `protocol`, `hostname`, `port`, `pathname`, `search`. */
  datatype Url = Url(scheme: Scheme, hostname: string, port: Option<nat>, pathname: string, search: string) {
    /** `u.host`: the hostname, with `:port` when the port is not the scheme's default. */
    function Host(): string {
      match port
      case None => hostname
      case Some(p) => hostname + ":" + NatToString(p)
    }
  }

  /**
   * What the URL parser guarantees about its result: a non-empty host without path, query or fragment
   * delimiters (a bracketed IPv6 hostname keeps its colons), a path from `/`, a search from `?`.
   */
  predicate ValidUrl(u: Url) {
    && u.hostname != []
    && (forall i | 0 <= i < |u.hostname| :: u.hostname[i] !in {'/', '?', '#'})
    && StartsWith(u.pathname, "/") && '?' !in u.pathname && '#' !in u.pathname
    && (u.search == [] || u.search[0] == '?') && '#' !in u.search
  }

  /** `u` is the parse of `loc`: the scheme is the one `loc` starts with. */
  predicate ParsedFrom(loc: string, u: Url) {
    StartsWith(loc, u.scheme.Name() + "://")
  }

  predicate IsAbsolute(loc: string) {
    StartsWith(loc, "http://") || StartsWith(loc, "https://")
  }

  /**
   * The host of a valid URL with a colon-free (not IPv6) hostname splits back into its hostname and port the
   * way `parseTargetUrl` splits a host.
   */
  lemma HostParts(u: Url)
    requires ValidUrl(u) && ':' !in u.hostname
    ensures '/' !in u.Host()
    ensures Before(u.Host(), ':') == u.hostname
    ensures TrailingPort(u.Host()) == u.port
  {
    assert ':' !in u.hostname && '/' !in u.hostname;
    match u.port {
      case None =>
        assert FirstIndex(u.hostname, ':') == -1;
      case Some(p) =>
        var h := u.Host();
        var digits := NatToString(p);
        NatToStringNoDot(p);
        NatToStringValue(p);
        assert h[|u.hostname|] == ':';
        assert h[..|u.hostname|] == u.hostname;
        assert FirstIndex(h, ':') == |u.hostname|;
        assert h[|u.hostname| + 1..] == digits;
        assert LastIndex(h, ':') == |u.hostname|;
        assert PortTail(h, |u.hostname|);
    }
  }

  /** The target that a gateway path built from `u` names. */
  function UrlTarget(hint: Option<Scheme>, u: Url): Target {
    Target(hint, u.Host(), u.hostname, u.port, u.pathname, u.search)
  }

  lemma UrlTargetWellFormed(hint: Option<Scheme>, u: Url)
    requires ValidUrl(u) && ':' !in u.hostname && '.' in u.hostname
    ensures WellFormed(UrlTarget(hint, u))
  {
    HostParts(u);
  }

  // ------------------------------------------------------------------ negotiating workers

  /** `rewriteUrl(loc, host, protocol, origin)`; `parsed` is what `new URL(loc)` yields (`None`: it threw). */
  function RewriteUrl(loc: string, host: string, protocol: Scheme, origin: string, parsed: Option<Url>): string
    requires parsed.Some? ==> ValidUrl(parsed.value) && ParsedFrom(loc, parsed.value)
  {
    if StartsWith(loc, "/") then origin + "/" + protocol.Name() + "://" + host + loc
    else if IsAbsolute(loc) then
      match parsed
      case None => loc
      case Some(u) =>
        if Blocked(u.hostname) then loc
        else origin + "/" + u.scheme.Name() + "://" + u.Host() + u.pathname + u.search
    else origin + "/" + protocol.Name() + "://" + host + "/" + loc
  }

  /**
   * Round trip for an absolute Location: the rewritten URL is the gateway URL of a well-formed target, and
   * `parseTargetUrl` on its path and search recovers the original scheme (as the hint), host and path.
   */
  lemma RewriteAbsoluteRoundTrip(loc: string, host: string, protocol: Scheme, origin: string, u: Url)
    requires ValidUrl(u) && ParsedFrom(loc, u) && ':' !in u.hostname && '.' in u.hostname && !Blocked(u.hostname)
    ensures var t := UrlTarget(Some(u.scheme), u);
      && RewriteUrl(loc, host, protocol, origin, Some(u)) == origin + TargetPath(t) + u.search
      && ParseTarget(TargetPath(t), u.search) == Some(t)
      && t.userProtocol == Some(u.scheme) && t.host == u.Host() && t.path == u.pathname
  {
    var t := UrlTarget(Some(u.scheme), u);
    RewriteAbsoluteShape(loc, host, protocol, origin, u);
    assert TargetPath(t) == "/" + (u.scheme.Name() + "://") + u.Host() + u.pathname;
    UrlTargetWellFormed(Some(u.scheme), u);
    ParseTargetPath(t);
  }

  /** The absolute branch of `rewriteUrl` for a host that is not blocked. */
  lemma RewriteAbsoluteShape(loc: string, host: string, protocol: Scheme, origin: string, u: Url)
    requires ValidUrl(u) && ParsedFrom(loc, u) && !Blocked(u.hostname)
    ensures RewriteUrl(loc, host, protocol, origin, Some(u))
      == origin + ("/" + (u.scheme.Name() + "://") + u.Host() + u.pathname) + u.search
  {
    ParsedIsAbsolute(loc, u);
    var mid := "/" + (u.scheme.Name() + "://") + u.Host() + u.pathname;
    assert RewriteUrl(loc, host, protocol, origin, Some(u))
      == origin + "/" + u.scheme.Name() + "://" + u.Host() + u.pathname + u.search;
    assert origin + "/" + u.scheme.Name() + "://" + u.Host() + u.pathname + u.search == origin + mid + u.search;
  }

  /** A Location the URL parser read a scheme from is absolute and does not start with `/`. */
  lemma ParsedIsAbsolute(loc: string, u: Url)
    requires ParsedFrom(loc, u)
    ensures !StartsWith(loc, "/") && IsAbsolute(loc)
  {
    assert !StartsWith(loc, "/") by { assert loc[..|u.scheme.Name() + "://"|][0] == 'h'; }
    if u.scheme == Http { assert loc[..7] == "http://"; } else { assert loc[..8] == "https://"; }
  }

  /** Round trip for a path-absolute Location: the path is kept and the current target's protocol becomes explicit. */
  lemma RewriteRelativeRoundTrip(lpath: string, lsearch: string, t: Target, origin: string, protocol: Scheme, parsed: Option<Url>)
    requires WellFormed(t) && StartsWith(lpath, "/")
    requires parsed.Some? ==> ValidUrl(parsed.value) && ParsedFrom(lpath + lsearch, parsed.value)
    ensures var t2 := Target(Some(protocol), t.host, t.hostname, t.port, lpath, lsearch);
      && RewriteUrl(lpath + lsearch, t.host, protocol, origin, parsed) == origin + TargetPath(t2) + lsearch
      && ParseTarget(TargetPath(t2), lsearch) == Some(t2)
  {
    var t2 := Target(Some(protocol), t.host, t.hostname, t.port, lpath, lsearch);
    RewriteRelativeShape(lpath, lsearch, t.host, origin, protocol, parsed);
    assert TargetPath(t2) == "/" + (protocol.Name() + "://") + t.host + lpath;
    assert WellFormed(t2);
    ParseTargetPath(t2);
  }

  lemma RewriteRelativeShape(lpath: string, lsearch: string, host: string, origin: string, protocol: Scheme, parsed: Option<Url>)
    requires StartsWith(lpath, "/")
    requires parsed.Some? ==> ValidUrl(parsed.value) && ParsedFrom(lpath + lsearch, parsed.value)
    ensures RewriteUrl(lpath + lsearch, host, protocol, origin, parsed)
      == origin + ("/" + (protocol.Name() + "://") + host + lpath) + lsearch
  {
    var loc := lpath + lsearch;
    assert StartsWith(loc, "/") by { assert loc[..1] == lpath[..1]; }
    assert RewriteUrl(loc, host, protocol, origin, parsed) == origin + "/" + protocol.Name() + "://" + host + loc;
  }

  /** The remaining cases: a blocked or unparsable absolute URL comes back unchanged; other text is made relative to the target's root. */
  lemma RewriteUrlOtherCases(loc: string, host: string, protocol: Scheme, origin: string, parsed: Option<Url>)
    requires parsed.Some? ==> ValidUrl(parsed.value) && ParsedFrom(loc, parsed.value)
    ensures IsAbsolute(loc) && (parsed.None? || Blocked(parsed.value.hostname)) ==>
      RewriteUrl(loc, host, protocol, origin, parsed) == loc
    ensures !StartsWith(loc, "/") && !IsAbsolute(loc) ==>
      RewriteUrl(loc, host, protocol, origin, parsed) == origin + "/" + protocol.Name() + "://" + host + "/" + loc
  {
    if IsAbsolute(loc) {
      assert loc[0] == 'h';
    }
  }

  // ------------------------------------------------------------------ legacy worker, as written

  /** `buildProxyBasePath`: an http target keeps its prefix, an https target is written without one. */
  function BuildProxyBasePath(proxyOrigin: string, t: LegacyTarget): string {
    if t.protocol == Http then proxyOrigin + "/http://" + t.host
    else proxyOrigin + "/" + t.host
  }

  /**
   * `rewriteRedirectUrl(location, originalTarget, proxyOrigin, parsedTarget)` as written: `targetHost` is
   * `originalTarget.host`, `protocol` is `parsedTarget.protocol`, `parsed` is what `new URL(location)` yields.
   */
  function RewriteRedirectUrl(location: string, targetHost: string, protocol: Scheme, proxyOrigin: string, parsed: Option<Url>): string
    requires parsed.Some? ==> ValidUrl(parsed.value) && ParsedFrom(location, parsed.value)
  {
    if StartsWith(location, "/") then
      if protocol == Http then proxyOrigin + "/http://" + targetHost + location
      else proxyOrigin + "/" + targetHost + location
    else if IsAbsolute(location) then
      match parsed
      case None => location
      case Some(u) =>
        if Blocked(u.hostname) then location
        else if u.scheme == Http then proxyOrigin + "/http://" + u.Host() + u.pathname + u.search
        else proxyOrigin + "/" + u.Host() + u.pathname + u.search
    else if protocol == Http then proxyOrigin + "/http://" + targetHost + "/" + location
    else proxyOrigin + "/" + targetHost + "/" + location
  }

  /**
   * A relative redirect is the base path of `buildProxyBasePath` followed by the location exactly when the host
   * the rewrite is given (`originalTarget.host`, what the URL parser made of the target) is the parsed target's
   * own `host` text; a host the URL parser normalised (`Media.Example.com`, `h.example.com:443`) gives another path.
   */
  lemma RelativeRedirectUsesBasePath(location: string, t: LegacyTarget, targetHost: string, proxyOrigin: string, parsed: Option<Url>)
    requires StartsWith(location, "/")
    requires parsed.Some? ==> ValidUrl(parsed.value) && ParsedFrom(location, parsed.value)
    ensures RewriteRedirectUrl(location, targetHost, t.protocol, proxyOrigin, parsed) == BuildProxyBasePath(proxyOrigin, t) + location
        <==> targetHost == t.host
  {
    var prefix := if t.protocol == Http then proxyOrigin + "/http://" else proxyOrigin + "/";
    var r := RewriteRedirectUrl(location, targetHost, t.protocol, proxyOrigin, parsed);
    var b := BuildProxyBasePath(proxyOrigin, t) + location;
    assert r == prefix + targetHost + location;
    assert b == prefix + t.host + location;
    if r == b {
      assert |targetHost| == |t.host|;
      assert targetHost == r[|prefix|..|prefix| + |targetHost|];
      assert t.host == b[|prefix|..|prefix| + |t.host|];
    }
  }

  /**
   * The legacy gateway re-parses an https redirect to a non-default port as http: the rewritten path has no
   * prefix, and the legacy parser then chooses http because the port is not 443.
   */
  lemma LegacyHttpsPortLost(loc: string, proxyOrigin: string, targetHost: string, protocol: Scheme, u: Url)
    requires ValidUrl(u) && ParsedFrom(loc, u) && ':' !in u.hostname && '.' in u.hostname && !Blocked(u.hostname)
    requires u.scheme == Https && u.port.Some? && u.port.value != 443
    ensures var t := UrlTarget(None, u);
      && RewriteRedirectUrl(loc, targetHost, protocol, proxyOrigin, Some(u)) == proxyOrigin + TargetPath(t) + u.search
      && ParseTargetLegacy(TargetPath(t), u.search).Some?
      && ParseTargetLegacy(TargetPath(t), u.search).value.protocol == Http
  {
    var t := UrlTarget(None, u);
    ParsedIsAbsolute(loc, u);
    assert RewriteRedirectUrl(loc, targetHost, protocol, proxyOrigin, Some(u)) == proxyOrigin + "/" + u.Host() + u.pathname + u.search;
    assert TargetPath(t) == "/" + u.Host() + u.pathname;
    assert proxyOrigin + "/" + u.Host() + u.pathname + u.search == proxyOrigin + TargetPath(t) + u.search;
    UrlTargetWellFormed(None, u);
    LegacyParseImplicit(t);
  }

  /**
   * A concrete input that meets every condition of `LegacyHttpsPortLost` (with `MediaExampleNotBlocked`):
   * a redirect to `https://media.example.com:8920/web` comes back through the legacy gateway as http.
   */
  lemma LegacyHttpsPortLostExample(u: Url, loc: string)
    requires u == Url(Https, "media.example.com", Some(8920), "/web", "")
    requires loc == "https://media.example.com:8920/web"
    ensures ValidUrl(u) && ParsedFrom(loc, u) && ':' !in u.hostname && '.' in u.hostname
    ensures u.scheme == Https && u.port.Some? && u.port.value != 443
  {
    ExampleUrlValid(u);
    ExampleUrlParsed(u, loc);
  }

  lemma ExampleUrlValid(u: Url)
    requires u == Url(Https, "media.example.com", Some(8920), "/web", "")
    ensures ValidUrl(u) && ':' !in u.hostname && '.' in u.hostname
  {
    var h := u.hostname;
    assert forall i | 0 <= i < |h| :: 'a' <= h[i] <= 'z' || h[i] == '.';
    assert h[5] == '.';
  }

  lemma ExampleUrlParsed(u: Url, loc: string)
    requires u == Url(Https, "media.example.com", Some(8920), "/web", "")
    requires loc == "https://media.example.com:8920/web"
    ensures ParsedFrom(loc, u)
  {
    assert loc[..8] == "https://";
  }

  lemma MediaExampleNotBlocked()
    ensures !Blocked("media.example.com")
  {
    var h := "media.example.com";
    assert forall k | 0 <= k < |h| && h[k] == '.' :: h[k + 1..] in {"example.com", "com"};
    forall i | 0 <= i < |BlockedDomains| ensures !UnderDomain(h, BlockedDomains[i]) {
      BlockedDomainsExclude(i);
      NotUnderDomain(h, BlockedDomains[i]);
    }
  }

  // ------------------------------------------------------------------ legacy worker, corrected

  /** The corrected legacy rewrite: always write the scheme explicitly, which is exactly `rewriteUrl`. */
  function RewriteRedirectUrlFixed(location: string, targetHost: string, protocol: Scheme, proxyOrigin: string, parsed: Option<Url>): string
    requires parsed.Some? ==> ValidUrl(parsed.value) && ParsedFrom(location, parsed.value)
  {
    RewriteUrl(location, targetHost, protocol, proxyOrigin, parsed)
  }

  /** With the explicit prefix the legacy parser recovers the redirect's own scheme, whatever the port. */
  lemma FixedKeepsScheme(loc: string, proxyOrigin: string, targetHost: string, protocol: Scheme, u: Url)
    requires ValidUrl(u) && ParsedFrom(loc, u) && ':' !in u.hostname && '.' in u.hostname && !Blocked(u.hostname)
    ensures var t := UrlTarget(Some(u.scheme), u);
      && RewriteRedirectUrlFixed(loc, targetHost, protocol, proxyOrigin, Some(u)) == proxyOrigin + TargetPath(t) + u.search
      && ParseTargetLegacy(TargetPath(t), u.search).Some?
      && ParseTargetLegacy(TargetPath(t), u.search).value.protocol == u.scheme
      && ParseTargetLegacy(TargetPath(t), u.search).value.host == u.Host()
  {
    var t := UrlTarget(Some(u.scheme), u);
    RewriteAbsoluteRoundTrip(loc, targetHost, protocol, proxyOrigin, u);
    UrlTargetWellFormed(Some(u.scheme), u);
    LegacyParseExplicit(t);
  }

  /** The corrected relative rewrite keeps the current target's protocol through the legacy parser too. */
  lemma FixedRelativeKeepsProtocol(lpath: string, lsearch: string, t: Target, proxyOrigin: string, protocol: Scheme)
    requires WellFormed(t) && StartsWith(lpath, "/")
    ensures var t2 := Target(Some(protocol), t.host, t.hostname, t.port, lpath, lsearch);
      && RewriteRedirectUrlFixed(lpath + lsearch, t.host, protocol, proxyOrigin, None) == proxyOrigin + TargetPath(t2) + lsearch
      && ParseTargetLegacy(TargetPath(t2), lsearch).Some?
      && ParseTargetLegacy(TargetPath(t2), lsearch).value.protocol == protocol
  {
    var t2 := Target(Some(protocol), t.host, t.hostname, t.port, lpath, lsearch);
    RewriteRelativeRoundTrip(lpath, lsearch, t, proxyOrigin, protocol, None);
    LegacyParseExplicit(t2);
  }
}
