/**
 * The request and response header policy of the two negotiating workers: media and stream
 * classification, `buildHeaders` (what is forwarded upstream) and the header part of `processResponse`
 * (what is returned to the client). A `Headers` object is a map from lower-cased names to values, as the
 * platform's `Headers` stores them; its `forEach` hands out lower-cased names.
 */
module HeaderPolicy {
  import opened Wrappers
  import opened Strings
  import opened Target
  import opened Access
  import opened Redirect

  /** A `Headers` object that the gateway fills in place. */
  class Headers {
    var entries: map<string, string>

    constructor()
      ensures entries == map[]
    {
      entries := map[];
    }

    /** `headers.set(name, value)`: names are case-insensitive and stored lower-cased. */
    method Set(name: string, value: string)
      modifies this
      ensures entries == old(entries)[ToLower(name) := value]
    {
      entries := entries[ToLower(name) := value];
    }

    /** `headers.has(name)`. */
    predicate Has(name: string)
      reads this
    {
      ToLower(name) in entries
    }
  }

  /** Names as `Headers.forEach` hands them out: lower-cased. */
  predicate LowerNames(h: map<string, string>) {
    forall k :: k in h ==> IsLower(k)
  }

  lemma ToLowerOfLower(s: string)
    requires IsLower(s)
    ensures ToLower(s) == s
  {
  }

  /** `headers.get(name)`: `null` when absent. */
  function Get(h: map<string, string>, name: string): Option<string> {
    if name in h then Some(h[name]) else None
  }

  /** `headers.get(name)` is truthy: present and not empty. */
  predicate Truthy(h: map<string, string>, name: string) {
    name in h && h[name] != ""
  }

  // ------------------------------------------------------------------ classification

  /** `CONFIG.MEDIA_PATTERNS`. */
  const MediaPatterns: seq<string> := [
    "/emby/", "/jellyfin/", "/mediabrowser/", "/videos/", "/Audio/", "/Items/",
    "/Users/", "/System/", "/Sessions/", "/Library/", "/Artists/", "/Albums/",
    "/Shows/", "/Movies/", "/socket", "/embywebsocket"
  ]

  /** The patterns of `isStreamRequest`. */
  const StreamPatterns: seq<string> := [
    "/Videos/", "/Audio/", "/stream", ".m3u8", ".ts", ".mp4", ".mkv", ".webm", ".mp3", ".flac"
  ]

  /** Some pattern occurs in `path` (case-sensitive). */
  predicate MatchesAny(path: string, patterns: seq<string>) {
    exists i | 0 <= i < |patterns| :: Contains(path, patterns[i])
  }

  /** `isMediaRequest`: a media path, or an Emby / MediaBrowser token header. */
  predicate MediaRequest(path: string, request: map<string, string>) {
    MatchesAny(path, MediaPatterns)
    || Truthy(request, "x-emby-authorization") || Truthy(request, "x-mediabrowser-token")
  }

  /** `isStreamRequest`: a stream path, or a content type naming video or audio. */
  predicate StreamRequest(path: string, contentType: Option<string>) {
    MatchesAny(path, StreamPatterns)
    || (contentType.Some? && (Contains(contentType.value, "video/") || Contains(contentType.value, "audio/")))
  }

  /** The pattern loop of both classifiers. */
  method ScanPatterns(path: string, patterns: seq<string>) returns (hit: bool)
    ensures hit <==> MatchesAny(path, patterns)
  {
    var i := 0;
    while i < |patterns|
      invariant 0 <= i <= |patterns|
      invariant forall j | 0 <= j < i :: !Contains(path, patterns[j])
    {
      var found := ContainsTest(path, patterns[i]);
      if found {
        return true;
      }
      i := i + 1;
    }
    return false;
  }

  /** `isMediaRequest(path, headers)`. */
  method IsMediaRequest(path: string, request: map<string, string>) returns (media: bool)
    ensures media <==> MediaRequest(path, request)
  {
    media := ScanPatterns(path, MediaPatterns);
    if !media {
      media := Truthy(request, "x-emby-authorization") || Truthy(request, "x-mediabrowser-token");
    }
  }

  /** `isStreamRequest(path, ct)`. */
  method IsStreamRequest(path: string, contentType: Option<string>) returns (stream: bool)
    ensures stream <==> StreamRequest(path, contentType)
  {
    stream := ScanPatterns(path, StreamPatterns);
    if !stream && contentType.Some? {
      var video := ContainsTest(contentType.value, "video/");
      var audio := ContainsTest(contentType.value, "audio/");
      stream := video || audio;
    }
  }

  /** Substring classification survives any text around the path. */
  lemma MatchesAnyExtend(path: string, patterns: seq<string>, pre: string, post: string)
    requires MatchesAny(path, patterns)
    ensures MatchesAny(pre + path + post, patterns)
  {
    var i :| 0 <= i < |patterns| && Contains(path, patterns[i]);
    var p := patterns[i];
    var j :| 0 <= j <= |path| - |p| && OccursAt(path, p, j);
    var s := pre + path + post;
    assert s[|pre| + j..|pre| + j + |p|] == path[j..j + |p|];
    assert OccursAt(s, p, |pre| + j);
  }

  /** The two lists overlap only in `/Audio/`: `/Videos/` (capitalised) is a stream path but not on its own a media path. */
  lemma AudioPathIsBoth(path: string)
    requires Contains(path, "/Audio/")
    ensures MatchesAny(path, MediaPatterns) && MatchesAny(path, StreamPatterns)
  {
    assert MediaPatterns[4] == "/Audio/" && StreamPatterns[1] == "/Audio/";
  }

  // ------------------------------------------------------------------ buildHeaders

  /** The skip list of `buildHeaders`: client-side and Cloudflare headers that are never forwarded. */
  const SkipHeaders: set<string> := {
    "host", "cf-connecting-ip", "cf-ipcountry", "cf-ray", "cf-visitor", "x-forwarded-for",
    "x-forwarded-proto", "x-real-ip", "cf-ew-via", "cdn-loop", "cf-worker"
  }

  const DefaultUserAgent: string := "Mozilla/5.0 (Windows NT 10.0; Win64; x64) AppleWebKit/537.36"

  /** `request.headers.get('CF-Connecting-IP') || ''`. */
  function ClientIp(request: map<string, string>): string {
    if "cf-connecting-ip" in request then request["cf-connecting-ip"] else ""
  }

  /** The request headers that `buildHeaders` copies: all but the skip list. */
  function CopiedRequestHeaders(request: map<string, string>): map<string, string> {
    map k | k in request && k !in SkipHeaders :: request[k]
  }

  /** The header map `buildHeaders(request, targetHost, protocol, isMedia)` produces. */
  function ForwardedHeaders(request: map<string, string>, targetHost: string, protocol: Scheme, isMedia: bool): map<string, string> {
    var base := CopiedRequestHeaders(request)["host" := targetHost]["x-forwarded-proto" := protocol.Name()];
    var withIp := if isMedia then base else base["x-real-ip" := ClientIp(request)]["x-forwarded-for" := ClientIp(request)];
    if "user-agent" in withIp then withIp else withIp["user-agent" := DefaultUserAgent]
  }

  /** `buildHeaders`: the `forEach` copy followed by the fixed headers. */
  method BuildHeaders(request: map<string, string>, targetHost: string, protocol: Scheme, isMedia: bool)
    returns (headers: Headers)
    requires LowerNames(request)
    ensures fresh(headers)
    ensures headers.entries == ForwardedHeaders(request, targetHost, protocol, isMedia)
  {
    headers := new Headers();
    var pending := request.Keys;
    while pending != {}
      invariant pending <= request.Keys
      invariant headers.entries == map k | k in request && k !in pending && k !in SkipHeaders :: request[k]
      decreases |pending|
    {
      var k :| k in pending;
      ToLowerOfLower(k);
      if ToLower(k) !in SkipHeaders {
        headers.Set(k, request[k]);
      }
      pending := pending - {k};
    }
    assert headers.entries == CopiedRequestHeaders(request);
    ToLowerOfLower("host");
    ToLowerOfLower("x-forwarded-proto");
    ToLowerOfLower("x-real-ip");
    ToLowerOfLower("x-forwarded-for");
    ToLowerOfLower("user-agent");
    headers.Set("host", targetHost);
    headers.Set("x-forwarded-proto", protocol.Name());
    if !isMedia {
      headers.Set("x-real-ip", ClientIp(request));
      headers.Set("x-forwarded-for", ClientIp(request));
    }
    var hasAgent := headers.Has("user-agent");
    if !hasAgent {
      headers.Set("user-agent", DefaultUserAgent);
    }
  }

  /** What the upstream request carries, and what it never carries. */
  lemma ForwardedHeadersPolicy(request: map<string, string>, targetHost: string, protocol: Scheme, isMedia: bool)
    ensures var h := ForwardedHeaders(request, targetHost, protocol, isMedia);
      && h["host"] == targetHost
      && h["x-forwarded-proto"] == protocol.Name()
      && ("x-real-ip" in h <==> !isMedia) && ("x-forwarded-for" in h <==> !isMedia)
      && (!isMedia ==> h["x-real-ip"] == ClientIp(request) && h["x-forwarded-for"] == ClientIp(request))
      && (forall k :: k in SkipHeaders && k !in {"host", "x-forwarded-proto", "x-real-ip", "x-forwarded-for"} ==> k !in h)
      && (forall k :: k in request && k !in SkipHeaders ==> k in h && h[k] == request[k])
      && h["user-agent"] == (if "user-agent" in request then request["user-agent"] else DefaultUserAgent)
      && (forall k :: k in h ==> k in request || k in {"host", "x-forwarded-proto", "x-real-ip", "x-forwarded-for", "user-agent"})
  {
  }

  // ------------------------------------------------------------------ processResponse (headers)

  /** `CONFIG.REMOVE_HEADERS`. */
  const RemoveHeaders: set<string> := {"content-security-policy", "content-security-policy-report-only", "x-frame-options"}

  /** `CONFIG.ALLOWED_METHODS.join(', ')`. */
  const AllowMethods: string := "GET, POST, PUT, DELETE, PATCH, HEAD, OPTIONS"

  const ExposeHeaders: string := "Content-Length, Content-Range, Accept-Ranges, ETag"

  const RedirectStatuses: set<int> := {301, 302, 303, 307, 308}

  /** The names `processResponse` sets after copying. */
  const SetByGateway: set<string> := {
    "accept-ranges", "access-control-allow-origin", "access-control-allow-credentials",
    "access-control-allow-methods", "access-control-allow-headers", "access-control-expose-headers",
    "x-proxy-protocol", "location"
  }

  /** A URL parser that only answers with a URL the location text spells out. */
  ghost predicate SoundParser(parse: string -> Option<Url>) {
    forall s :: parse(s).Some? ==> ValidUrl(parse(s).value) && ParsedFrom(s, parse(s).value)
  }

  /** Is an upstream response header copied? Stream and media responses lose only the CSP header. */
  predicate Kept(name: string, passThrough: bool) {
    if passThrough then name != "content-security-policy" else name !in RemoveHeaders
  }

  function KeptResponseHeaders(response: map<string, string>, passThrough: bool): map<string, string> {
    map k | k in response && Kept(k, passThrough) :: response[k]
  }

  /** `request.headers.get('Origin') || '*'`. */
  function AllowOrigin(request: map<string, string>): string {
    if Truthy(request, "origin") then request["origin"] else "*"
  }

  /** Whether `processResponse` treats the response as stream or media. */
  predicate PassThrough(response: map<string, string>, path: string, isMedia: bool) {
    isMedia || StreamRequest(path, Get(response, "content-type"))
  }

  /** The `forEach` filter, then `Accept-Ranges: bytes` for stream and media responses that lack it. */
  function FilteredResponseHeaders(response: map<string, string>, passThrough: bool): map<string, string> {
    var kept := KeptResponseHeaders(response, passThrough);
    if passThrough && "accept-ranges" !in kept then kept["accept-ranges" := "bytes"] else kept
  }

  /** The CORS headers and the protocol marker, set on every proxied response. */
  function WithCors(h: map<string, string>, request: map<string, string>, protocol: Scheme): map<string, string> {
    h["access-control-allow-origin" := AllowOrigin(request)]
     ["access-control-allow-credentials" := "true"]
     ["access-control-allow-methods" := AllowMethods]
     ["access-control-allow-headers" := "*"]
     ["access-control-expose-headers" := ExposeHeaders]
     ["x-proxy-protocol" := protocol.Name()]
  }

  /** A redirect with a non-empty `Location` gets it rewritten through the gateway. */
  function WithLocation(h: map<string, string>, response: map<string, string>, status: int, host: string,
                        protocol: Scheme, origin: string, parse: string -> Option<Url>): map<string, string>
    requires SoundParser(parse)
  {
    if status in RedirectStatuses && Truthy(response, "location") then
      var loc := response["location"];
      h["location" := RewriteUrl(loc, host, protocol, origin, parse(loc))]
    else h
  }

  /** The header map of the response `processResponse` returns; `host` is `parsed.host`, `origin` the gateway origin. */
  function ResponseHeaders(response: map<string, string>, status: int, request: map<string, string>, path: string,
                           host: string, protocol: Scheme, isMedia: bool, origin: string,
                           parse: string -> Option<Url>): map<string, string>
    requires SoundParser(parse)
  {
    var filtered := FilteredResponseHeaders(response, PassThrough(response, path, isMedia));
    WithLocation(WithCors(filtered, request, protocol), response, status, host, protocol, origin, parse)
  }

  /** The header part of `processResponse`: the `forEach` filter, then the headers the gateway sets. */
  method ProcessResponseHeaders(response: map<string, string>, status: int, request: map<string, string>, path: string,
                                host: string, protocol: Scheme, isMedia: bool, origin: string,
                                parse: string -> Option<Url>)
    returns (headers: Headers)
    requires LowerNames(response) && SoundParser(parse)
    ensures fresh(headers)
    ensures headers.entries == ResponseHeaders(response, status, request, path, host, protocol, isMedia, origin, parse)
  {
    headers := new Headers();
    var isStream := IsStreamRequest(path, Get(response, "content-type"));
    var passThrough := isStream || isMedia;
    CopyResponseHeaders(headers, response, passThrough);
    ToLowerOfLower("accept-ranges");
    var hasRanges := headers.Has("accept-ranges");
    if passThrough && !hasRanges {
      headers.Set("accept-ranges", "bytes");
    }
    assert headers.entries == FilteredResponseHeaders(response, PassThrough(response, path, isMedia));
    SetCors(headers, request, protocol);
    SetLocation(headers, response, status, host, protocol, origin, parse);
  }

  /** The `forEach` of `processResponse` over the upstream headers. */
  method CopyResponseHeaders(headers: Headers, response: map<string, string>, passThrough: bool)
    requires LowerNames(response) && headers.entries == map[]
    modifies headers
    ensures headers.entries == KeptResponseHeaders(response, passThrough)
  {
    var pending := response.Keys;
    while pending != {}
      invariant pending <= response.Keys
      invariant headers.entries == map k | k in response && k !in pending && Kept(k, passThrough) :: response[k]
      decreases |pending|
    {
      var k :| k in pending;
      ToLowerOfLower(k);
      var lk := ToLower(k);
      if passThrough {
        if lk != "content-security-policy" {
          headers.Set(k, response[k]);
        }
      } else if lk !in RemoveHeaders {
        headers.Set(k, response[k]);
      }
      pending := pending - {k};
    }
  }

  /** The redirect step of `processResponse`. */
  method SetLocation(headers: Headers, response: map<string, string>, status: int, host: string,
                     protocol: Scheme, origin: string, parse: string -> Option<Url>)
    requires SoundParser(parse)
    modifies headers
    ensures headers.entries == WithLocation(old(headers.entries), response, status, host, protocol, origin, parse)
  {
    ToLowerOfLower("location");
    if status in RedirectStatuses {
      if Truthy(response, "location") {
        var loc := response["location"];
        headers.Set("location", RewriteUrl(loc, host, protocol, origin, parse(loc)));
      }
    }
  }

  /** The six `respHeaders.set` calls that every proxied response gets. */
  method SetCors(headers: Headers, request: map<string, string>, protocol: Scheme)
    modifies headers
    ensures headers.entries == WithCors(old(headers.entries), request, protocol)
  {
    AllowNamesLower();
    ExposeNamesLower();
    headers.Set("access-control-allow-origin", AllowOrigin(request));
    headers.Set("access-control-allow-credentials", "true");
    headers.Set("access-control-allow-methods", AllowMethods);
    headers.Set("access-control-allow-headers", "*");
    headers.Set("access-control-expose-headers", ExposeHeaders);
    headers.Set("x-proxy-protocol", protocol.Name());
  }

  /** The first three names `SetCors` passes to `Headers.Set` are already lower-case … */
  lemma AllowNamesLower()
    ensures ToLower("access-control-allow-origin") == "access-control-allow-origin"
    ensures ToLower("access-control-allow-credentials") == "access-control-allow-credentials"
    ensures ToLower("access-control-allow-methods") == "access-control-allow-methods"
  {
    ToLowerOfLower("access-control-allow-origin");
    ToLowerOfLower("access-control-allow-credentials");
    ToLowerOfLower("access-control-allow-methods");
  }

  /** … and so are the other three. */
  lemma ExposeNamesLower()
    ensures ToLower("access-control-allow-headers") == "access-control-allow-headers"
    ensures ToLower("access-control-expose-headers") == "access-control-expose-headers"
    ensures ToLower("x-proxy-protocol") == "x-proxy-protocol"
  {
    ToLowerOfLower("access-control-allow-headers");
    ToLowerOfLower("access-control-expose-headers");
    ToLowerOfLower("x-proxy-protocol");
  }

  /** Which upstream headers reach the client: stream and media responses lose only the CSP header and always carry `Accept-Ranges`. */
  lemma FilteredResponsePolicy(response: map<string, string>, passThrough: bool)
    ensures var h := FilteredResponseHeaders(response, passThrough);
      && "content-security-policy" !in h
      && (!passThrough ==> forall k :: k in RemoveHeaders ==> k !in h)
      && (passThrough ==> h["accept-ranges"] == (if "accept-ranges" in response then response["accept-ranges"] else "bytes"))
      && (forall k :: k in response && Kept(k, passThrough) ==> k in h && h[k] == response[k])
      && (forall k :: k in h ==> (k in response && Kept(k, passThrough)) || k == "accept-ranges")
  {
  }

  /** The CORS headers and the protocol marker override whatever the upstream sent and leave the rest alone. */
  lemma CorsPolicy(h: map<string, string>, request: map<string, string>, protocol: Scheme)
    ensures var r := WithCors(h, request, protocol);
      && r["access-control-allow-origin"] == (if Truthy(request, "origin") then request["origin"] else "*")
      && r["access-control-allow-credentials"] == "true"
      && r["access-control-allow-methods"] == AllowMethods
      && r["x-proxy-protocol"] == protocol.Name()
      && (forall k :: k in h && k !in SetByGateway ==> k in r && r[k] == h[k])
      && (forall k :: k in r ==> k in h || k in SetByGateway)
      && ("location" in r <==> "location" in h) && ("location" in h ==> r["location"] == h["location"])
      && ("content-security-policy" in r <==> "content-security-policy" in h)
  {
  }

  /** Only a redirect status with a non-empty `Location` has it rewritten; otherwise the upstream value passes through. */
  lemma LocationPolicy(h: map<string, string>, response: map<string, string>, status: int, host: string,
                       protocol: Scheme, origin: string, parse: string -> Option<Url>)
    requires SoundParser(parse)
    ensures var r := WithLocation(h, response, status, host, protocol, origin, parse);
      && (status in RedirectStatuses && Truthy(response, "location") ==>
            r["location"] == RewriteUrl(response["location"], host, protocol, origin, parse(response["location"])))
      && (!(status in RedirectStatuses && Truthy(response, "location")) ==> r == h)
      && (forall k :: k != "location" ==> (k in r <==> k in h) && (k in h ==> r[k] == h[k]))
  {
  }

  /** A stream or media response keeps the frame-options header that other responses lose. */
  lemma PassThroughKeepsFrameOptions(response: map<string, string>, passThrough: bool)
    requires "x-frame-options" in response
    ensures "x-frame-options" in FilteredResponseHeaders(response, passThrough) <==> passThrough
  {
  }
}
