/**
 * Target resolution: how a gateway path `/{https://|http://}?host[:port]/path` names an upstream.
 * `ParseTarget` is `parseTargetUrl` of the two protocol-negotiating workers (scripts/fallback_proxy.js
 * and emby-cf/emby-cf.js, which are identical here); `ParseTargetLegacy` is the older variant in the
 * root fallback_proxy.js, which picks the protocol from the port instead of negotiating it.
 */
module Target {
  import opened Wrappers
  import opened Strings

  datatype Scheme = Http | Https {
    /** The scheme as the source spells it in URLs and headers. */
    function Name(): (s: string)
      ensures s == "http" || s == "https"
      ensures '.' !in s && '/' !in s && ':' !in s
    {
      if Http? then "http" else "https"
    }
  }

  /** What `parseTargetUrl` returns: the protocol hint, `host` (with any port), `hostname`, `port`, `path`, `search`. */
  datatype Target = Target(userProtocol: Option<Scheme>, host: string, hostname: string,
                           port: Option<nat>, path: string, search: string)

  /** `pathname.slice(1)`. */
  function DropLeadingChar(pathname: string): string {
    if pathname == [] then [] else pathname[1..]
  }

  /** The explicit `https://` / `http://` prefix, consumed (tried in that order). */
  function StripScheme(path: string): (r: (Option<Scheme>, string))
    ensures r.0 == Some(Https) <==> StartsWith(path, "https://")
    ensures r.0 == Some(Http) <==> StartsWith(path, "http://")
    ensures r.0 == None ==> r.1 == path
    ensures r.0.Some? ==> path == r.0.value.Name() + "://" + r.1
  {
    SchemePrefixesDisjoint(path);
    if StartsWith(path, "https://") then (Some(Https), path[8..])
    else if StartsWith(path, "http://") then (Some(Http), path[7..])
    else (None, path)
  }

  lemma SchemePrefixesDisjoint(path: string)
    ensures !(StartsWith(path, "https://") && StartsWith(path, "http://"))
  {
    if StartsWith(path, "https://") {
      assert path[..8][4] == 's';
      assert path[4] == 's';
      assert |path| < 7 || path[..7][4] != "http://"[4];
    }
  }

  /** The host part (before the first `/`) and the remaining path (from that `/`, or `/` if there is none). */
  function SplitHostPath(rest: string): (r: (string, string))
    ensures '/' !in r.0 && StartsWith(r.1, "/")
    ensures r.0 + r.1 == rest || (r.0 == rest && r.1 == "/")
    ensures '/' in rest ==> r.0 + r.1 == rest
  {
    var idx := FirstIndex(rest, '/');
    if idx == -1 then (rest, "/") else (assert rest == rest[..idx] + rest[idx..]; (rest[..idx], rest[idx..]))
  }

  /** `/^(\d{1,3}\.){3}\d{1,3}$/`: four runs of one to three digits separated by dots. */
  predicate IsDottedQuadShape(h: string) {
    var parts := Split(h, '.');
    |parts| == 4 && forall k :: 0 <= k < 4 ==> 1 <= |parts[k]| <= 3 && AllDigits(parts[k])
  }

  /** The hostname test of `parseTargetUrl`: non-empty, and a dotted quad or containing a `.`. */
  predicate AcceptedHostname(h: string) {
    h != [] && (IsDottedQuadShape(h) || '.' in h)
  }

  /** The dotted-quad alternative adds nothing: a hostname is accepted exactly when it contains a dot. */
  lemma AcceptedHostnameIffDot(h: string)
    ensures AcceptedHostname(h) <==> '.' in h
  {
    if '.' !in h {
      assert Split(h, '.') == [h];
    }
  }

  /** `host.match(/:(\d+)$/)`: the digits after the last `:`, when they run to the end of `host`. */
  function TrailingPort(host: string): (r: Option<nat>)
    ensures r.Some? <==> exists i | 0 <= i < |host| :: host[i] == ':' && PortTail(host, i)
    ensures ':' !in host ==> r == None
  {
    var j := LastIndex(host, ':');
    if j == -1 then None
    else if PortTail(host, j) then Some(DigitsValue(host[j + 1..]))
    else
      assert forall i | 0 <= i < |host| && host[i] == ':' :: !PortTail(host, i) by {
        forall i | 0 <= i < |host| && host[i] == ':' ensures !PortTail(host, i) {
          if i < j { assert host[i + 1..][j - i - 1] == ':'; }
        }
      }
      None
  }

  /** The text after position `i` of `host` is a non-empty run of digits. */
  predicate PortTail(host: string, i: int)
    requires 0 <= i < |host|
  {
    host[i + 1..] != [] && AllDigits(host[i + 1..])
  }

  /** `parseTargetUrl(pathname, search)` of the negotiating workers; `None` is its `null`. */
  function ParseTarget(pathname: string, search: string): Option<Target> {
    var path := DropLeadingChar(pathname);
    if path == [] then None
    else
      var sr := StripScheme(path);
      var hp := SplitHostPath(sr.1);
      var hostname := Before(hp.0, ':');
      if !AcceptedHostname(hostname) then None
      else Some(Target(sr.0, hp.0, hostname, TrailingPort(hp.0), hp.1, search))
  }

  /** The gateway path that names `t`: the inverse of `ParseTarget`. */
  function TargetPath(t: Target): string {
    "/" + SchemePrefix(t.userProtocol) + t.host + t.path
  }

  function SchemePrefix(p: Option<Scheme>): string {
    match p
    case None => ""
    case Some(s) => s.Name() + "://"
  }

  /** The targets `ParseTarget` can produce. */
  predicate WellFormed(t: Target) {
    && '/' !in t.host
    && t.hostname == Before(t.host, ':')
    && '.' in t.hostname
    && t.port == TrailingPort(t.host)
    && StartsWith(t.path, "/")
  }

  /** A host part with a dotted hostname cannot be mistaken for a scheme prefix. */
  lemma NoSchemeInHost(t: Target)
    requires WellFormed(t)
    ensures !StartsWith(t.host + t.path, "https://") && !StartsWith(t.host + t.path, "http://")
  {
    var d := FirstIndex(t.hostname, '.');
    assert t.host[..|t.hostname|] == t.hostname;
    assert t.host[d] == '.' by { assert t.host[..|t.hostname|][d] == t.hostname[d]; }
    DottedHostNotScheme(t.host, t.path, "https://", d);
    DottedHostNotScheme(t.host, t.path, "http://", d);
  }

  lemma DottedHostNotScheme(host: string, path: string, pre: string, d: nat)
    requires '/' !in host && d < |host| && host[d] == '.'
    requires |pre| >= 2 && pre[|pre| - 2] == '/' && '.' !in pre
    ensures !StartsWith(host + path, pre)
  {
    var s := host + path;
    var k := |pre| - 2;
    if |pre| <= |s| {
      if k < |host| {
        assert s[k] == host[k];
        assert s[..|pre|][k] != pre[k];
      } else {
        assert s[d] == host[d];
        assert s[..|pre|][d] != pre[d];
      }
    }
  }

  /** Round trip: the path of a well-formed target parses back to that target. */
  lemma ParseTargetPath(t: Target)
    requires WellFormed(t)
    ensures ParseTarget(TargetPath(t), t.search) == Some(t)
  {
    TargetPathParts(t);
    SplitHostPathOf(t.host, t.path);
    AcceptedHostnameIffDot(t.hostname);
  }

  /** The first two steps of `ParseTarget` on a target's path: the leading `/` and the scheme prefix come off. */
  lemma TargetPathParts(t: Target)
    requires WellFormed(t)
    ensures DropLeadingChar(TargetPath(t)) != []
    ensures StripScheme(DropLeadingChar(TargetPath(t))) == (t.userProtocol, t.host + t.path)
  {
    DropTargetPath(t);
    NoSchemeInHost(t);
    StripSchemePrefix(t.userProtocol, t.host + t.path);
  }

  lemma DropTargetPath(t: Target)
    ensures DropLeadingChar(TargetPath(t)) == SchemePrefix(t.userProtocol) + (t.host + t.path)
  {
    assert TargetPath(t) == "/" + (SchemePrefix(t.userProtocol) + (t.host + t.path));
  }

  lemma StripSchemePrefix(p: Option<Scheme>, rest: string)
    requires !StartsWith(rest, "https://") && !StartsWith(rest, "http://")
    ensures StripScheme(SchemePrefix(p) + rest) == (p, rest)
  {
    var path := SchemePrefix(p) + rest;
    match p {
      case None =>
        assert path == rest;
      case Some(s) =>
        if s == Https {
          assert path[..8] == "https://";
        } else {
          assert path[..7] == "http://";
        }
    }
  }

  lemma SplitHostPathOf(host: string, path: string)
    requires '/' !in host && StartsWith(path, "/")
    ensures SplitHostPath(host + path) == (host, path)
  {
    var rest := host + path;
    assert rest[|host|] == '/';
    assert rest[..|host|] == host;
    assert FirstIndex(rest, '/') == |host|;
    assert rest[|host|..] == path;
  }

  /** Round trip the other way: a parsed target renders back to the path it came from, with a `/` added when the path had none. */
  lemma TargetPathOfParse(pathname: string, search: string)
    requires ParseTarget(pathname, search).Some?
    ensures var t := ParseTarget(pathname, search).value;
      && WellFormed(t) && t.search == search
      && (TargetPath(t) == "/" + DropLeadingChar(pathname) || TargetPath(t) == "/" + DropLeadingChar(pathname) + "/")
  {
    var t := ParseTarget(pathname, search).value;
    var path := DropLeadingChar(pathname);
    var sr := StripScheme(path);
    var hp := SplitHostPath(sr.1);
    assert t == Target(sr.0, hp.0, Before(hp.0, ':'), TrailingPort(hp.0), hp.1, search);
    AcceptedHostnameIffDot(t.hostname);
    assert path == SchemePrefix(sr.0) + sr.1;
    assert TargetPath(t) == "/" + SchemePrefix(sr.0) + hp.0 + hp.1;
    ConcatShape(SchemePrefix(sr.0), sr.1, hp.0, hp.1);
  }

  lemma ConcatShape(pre: string, rest: string, host: string, remain: string)
    requires host + remain == rest || (host == rest && remain == "/")
    ensures "/" + pre + host + remain == "/" + (pre + rest) || "/" + pre + host + remain == "/" + (pre + rest) + "/"
  {
    if host + remain == rest {
      assert "/" + pre + host + remain == "/" + (pre + (host + remain));
    }
  }

  /** The null cases of `parseTargetUrl`, and the protocol hint it reports. */
  lemma ParseTargetCases(pathname: string, search: string)
    ensures var path := DropLeadingChar(pathname);
      var host := SplitHostPath(StripScheme(path).1).0;
      ParseTarget(pathname, search).None? <==> path == [] || '.' !in Before(host, ':')
    ensures ParseTarget(pathname, search).Some? ==>
      var t := ParseTarget(pathname, search).value;
      && (t.userProtocol == Some(Https) <==> StartsWith(DropLeadingChar(pathname), "https://"))
      && (t.userProtocol == Some(Http) <==> StartsWith(DropLeadingChar(pathname), "http://"))
      && t.search == search
      && StartsWith(t.path, "/")
  {
    var path := DropLeadingChar(pathname);
    var host := SplitHostPath(StripScheme(path).1).0;
    AcceptedHostnameIffDot(Before(host, ':'));
  }

  // ------------------------------------------------------------------ legacy variant

  /** What the root fallback_proxy.js `parseTargetUrl` returns. */
  datatype LegacyTarget = LegacyTarget(url: string, protocol: Scheme, host: string, hostname: string, path: string)

  /** The protocol rule of the legacy variant: an explicit prefix wins; otherwise https unless the host ends in a port other than 443. */
  function LegacyProtocol(explicit: Option<Scheme>, host: string): Scheme {
    if explicit.Some? then explicit.value
    else
      match TrailingPort(host)
      case Some(p) => if p != 443 then Http else Https
      case None => Https
  }

  function ParseTargetLegacy(pathname: string, search: string): Option<LegacyTarget> {
    var path := DropLeadingChar(pathname);
    if path == [] then None
    else
      var sr := StripScheme(path);
      var hp := SplitHostPath(sr.1);
      var hostname := Before(hp.0, ':');
      if hostname == [] || '.' !in hostname then None
      else
        var protocol := LegacyProtocol(sr.0, hp.0);
        Some(LegacyTarget(protocol.Name() + "://" + hp.0 + hp.1 + search, protocol, hp.0, hostname, hp.1))
  }

  /** The legacy parser on the path of a well-formed target: an explicit prefix is kept. */
  lemma LegacyParseExplicit(t: Target)
    requires WellFormed(t) && t.userProtocol.Some?
    ensures ParseTargetLegacy(TargetPath(t), t.search).Some?
    ensures ParseTargetLegacy(TargetPath(t), t.search).value.protocol == t.userProtocol.value
    ensures ParseTargetLegacy(TargetPath(t), t.search).value.host == t.host
  {
    ParseTargetPath(t);
    LegacyAgreesWithWorker(TargetPath(t), t.search);
  }

  /** The legacy parser on the path of a well-formed target without a prefix: http exactly for a port other than 443. */
  lemma LegacyParseImplicit(t: Target)
    requires WellFormed(t) && t.userProtocol.None?
    ensures ParseTargetLegacy(TargetPath(t), t.search).Some?
    ensures ParseTargetLegacy(TargetPath(t), t.search).value.protocol == Http <==> t.port.Some? && t.port.value != 443
    ensures ParseTargetLegacy(TargetPath(t), t.search).value.host == t.host
  {
    ParseTargetPath(t);
    LegacyAgreesWithWorker(TargetPath(t), t.search);
  }

  /** The two parsers accept the same paths and split them the same way; they differ only in how the protocol is chosen. */
  lemma LegacyAgreesWithWorker(pathname: string, search: string)
    ensures ParseTargetLegacy(pathname, search).Some? <==> ParseTarget(pathname, search).Some?
    ensures ParseTarget(pathname, search).Some? ==>
      var t := ParseTarget(pathname, search).value;
      var l := ParseTargetLegacy(pathname, search).value;
      && l.host == t.host && l.hostname == t.hostname && l.path == t.path
      && l.url == l.protocol.Name() + "://" + t.host + t.path + search
      && (t.userProtocol.Some? ==> l.protocol == t.userProtocol.value)
      && (t.userProtocol.None? ==> (l.protocol == Http <==> t.port.Some? && t.port.value != 443))
  {
    var path := DropLeadingChar(pathname);
    if path != [] {
      var host := SplitHostPath(StripScheme(path).1).0;
      AcceptedHostnameIffDot(Before(host, ':'));
    }
  }
}
