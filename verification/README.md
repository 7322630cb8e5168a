# emby-proxy-list gateway core, modelled in Dafny

The repository runs a path-prefix reverse proxy for Emby/Jellyfin media servers. A request for
`/{https://|http://}?host[:port]/path` on the gateway is forwarded to that upstream. The repository also
collects lists of relay addresses. This project models the logic of five source files:

- `scripts/fallback_proxy.js` and `emby-cf/emby-cf.js` are the two protocol-negotiating Cloudflare workers.
  Their proxy functions are the same line for line, so they are modelled once. Rows below cite one or
  the other. The model covers:
  - target parsing;
  - the block list and the whitelist;
  - the protocol cache with its TTL, the KV mirror and the HTTPS probe;
  - the downgrade retry of `handleProxy`;
  - request and response header policy;
  - redirect `Location` rewriting;
  - the `ip#REGION` proxy-list parser, the region guess and the priority selection.
- `fallback_proxy.js` is the older worker. It picks the protocol from the port (anything but 443 is http)
  and writes https targets without a prefix. Its own versions of the parser, the redirect rewrite, the
  blocked-page category, the proxy-list parser, the region guess and the selection are modelled beside
  the current ones, with lemmas relating the two.
- `scripts/aggregate.py` is the list aggregator. The model covers:
  - the `IPEntry` properties;
  - the IPv4 and port validators;
  - the line parsers;
  - deduplication by address with its merge rule;
  - the octet sort.
- `proxy-server.js` is the Node.js variant. The model covers the inline target split, the protocol choice,
  the block list, the upgrade handler and the `proxyRes` header edit.

The project's modules:

| module | contents |
|---|---|
| `Wrappers` | `Option` |
| `Strings` | the JavaScript and Python string operations the code relies on |
| `Target` | `parseTargetUrl`, current and legacy |
| `Access` | block list, whitelist, blocked-page category, the Node block list |
| `Redirect` | `rewriteUrl`, `rewriteRedirectUrl`, `buildProxyBasePath` |
| `Negotiator` | the `protocolCache` class and `resolveProtocol` |
| `HeaderPolicy` | classification, `buildHeaders`, the header part of `processResponse` |
| `Gateway` | `handleProxy` |
| `ProxyList` | `parseProxyList`, `guessRegion*`, `selectProxies*` |
| `Aggregate`, `AggregateParsers`, `AggregateDedup`, `AggregateSort` | `scripts/aggregate.py` |
| `NodeProxy` | `proxy-server.js` |

Where the source changes state, the model does too:
- `ProtocolCache`, a class, holds the module-level cache dictionary and the list of KV writes issued.
- `HeaderPolicy.Headers` is filled in place by the `forEach` loops.
- The request object of the Node server has its `url` overwritten.
- The `proxyRes` header map has keys deleted in a loop.

Each such method is proved against a specification function, and the properties are lemmas about those
functions.

Collaborators the model cannot see become inputs:
- the clock readings (`now`, `stamp`);
- what the KV read returned;
- what the HEAD probe and each `fetch` did, as a status with headers or a throw;
- what the platform's URL parser extracts (`parse`, `hostnameOf`);
- the matches of the Python regular expressions (`Patterns`).

## Model

| member | source | states |
|---|---|---|
| Target.StripScheme | scripts/fallback_proxy.js:127-129 | The hint is https exactly when the path starts with `https://`, http exactly when it starts with `http://`, and otherwise the path is untouched; a stripped prefix plus the rest gives the path back |
| Target.SplitHostPath | scripts/fallback_proxy.js:131-133 | The host part has no `/`, the remaining path starts with `/`, and together they are the input, or the whole input plus `/` when it had no slash |
| Target.AcceptedHostnameIffDot | scripts/fallback_proxy.js:135-136 | The dotted-quad alternative of the hostname test adds nothing: a hostname is accepted iff it contains a `.` |
| Target.TrailingPort | scripts/fallback_proxy.js:138 | `/:(\d+)$/` matches iff some `:` is followed by a non-empty run of digits to the end; no `:` means no port |
| Target.ParseTargetCases | emby-cf/emby-cf.js:87-112 | `parseTargetUrl` is null iff the path after `/` is empty or the hostname before the first `:` has no `.`; otherwise the hint reflects exactly the stripped prefix, `search` is carried through and `path` starts with `/` |
| Target.ParseTargetPath | scripts/fallback_proxy.js:123-148 | Round trip: the gateway path of any well-formed target parses back to exactly that target |
| Target.TargetPathOfParse | emby-cf/emby-cf.js:87-112 | Round trip the other way: a parsed target is well formed, keeps `search`, and renders back to `/` plus the pathname after its first character (plus `/` when that had no slash) |
| Target.NoSchemeInHost | scripts/fallback_proxy.js:128-129 | A dotted host cannot be mistaken for a scheme prefix |
| Target.LegacyAgreesWithWorker | fallback_proxy.js:141-199 | The legacy parser accepts exactly the paths the current one does, with the same host, hostname and path; its url is protocol, host, path and search; an explicit prefix wins, else http iff the host ends in a port other than 443 |
| Target.LegacyParseExplicit | fallback_proxy.js:152-161 | On the path of a well-formed target with a prefix, the legacy parser keeps that protocol and host |
| Target.LegacyParseImplicit | fallback_proxy.js:179-188 | Without a prefix the legacy parser chooses http exactly for a trailing port other than 443 |
| Access.IsBlocked | scripts/fallback_proxy.js:274-280 | The scan returns true iff some listed domain equals the hostname or is a suffix after a `.` |
| Access.FirstCover | emby-cf/emby-cf.js:223-229 | The early-exit loop finds a match iff some entry covers the hostname |
| Access.UnderDomainIff | emby-cf/emby-cf.js:226 | `h === d \|\| h.endsWith('.' + d)` holds iff `h` is `d` or `x + "." + d` for some `x` |
| Access.SubdomainOfBlocked | emby-cf/emby-cf.js:223-229 | Every subdomain of a blocked host is blocked |
| Access.MailGoogleIsBlocked | emby-cf/emby-cf.js:223-229 | `mail.google.com` is blocked |
| Access.NotGoogleIsNotBlocked | emby-cf/emby-cf.js:223-229 | `notgoogle.com` is not blocked: the suffix rule respects label boundaries |
| Access.CheckWhitelist | fallback_proxy.js:326-338 | Allowed iff the whitelist is empty or some entry covers the hostname |
| Access.CheckAccess | scripts/fallback_proxy.js:213-223 | The two scans in order compute the access verdict |
| Access.DecidePrecedence | fallback_proxy.js:321-338 | A blocked host gets the blocked page even when whitelisted; a host passes iff it is not blocked and the whitelist is empty or covers it; "not allowed" only happens with a non-empty whitelist |
| Access.GetBlockedReason | fallback_proxy.js:230-287 | The nested loops return the first category, in declaration order, that has a keyword occurring in the hostname, and the default category iff there is none |
| Access.ContainsTest | fallback_proxy.js:280 | `indexOf(sub) !== -1` by scanning start positions: true iff `sub` occurs |
| Access.NodeBlocksSupersetOfWorker | proxy-server.js:69-71 | The Node suffix test blocks every host the label-boundary rule blocks for the same domains |
| Access.NodeBlocksWithoutLabelBoundary | proxy-server.js:71 | `notgoogle.com` is blocked by the Node server and not by the workers |
| Redirect.HostParts | scripts/fallback_proxy.js:360 | `u.host` of a valid URL whose hostname has no `:` (not IPv6) splits back into hostname and port the way the target parser splits a host |
| Redirect.UrlTargetWellFormed | scripts/fallback_proxy.js:358-360 | The target named by a valid URL with a dotted, colon-free hostname is well formed |
| Redirect.RewriteAbsoluteRoundTrip | emby-cf/emby-cf.js:300-310 | For a colon-free hostname, a non-blocked absolute Location becomes `origin + /{scheme}://{u.host}{pathname}{search}`, and `parseTargetUrl` on it recovers hint = the scheme, host = `u.host`, path = `u.pathname` |
| Redirect.RewriteAbsoluteShape | emby-cf/emby-cf.js:303-306 | The absolute branch for a non-blocked host, as a gateway URL |
| Redirect.RewriteRelativeRoundTrip | emby-cf/emby-cf.js:302 | A `/…` Location keeps the path and search and makes the current protocol explicit; the result parses back to the current host with that path |
| Redirect.RewriteRelativeShape | scripts/fallback_proxy.js:356 | The `/…` branch: `origin/{protocol}://{host}{loc}` |
| Redirect.RewriteUrlOtherCases | scripts/fallback_proxy.js:357-363 | A blocked or unparsable absolute URL is returned unchanged; any other text becomes `origin/{protocol}://{host}/{loc}` |
| Redirect.ParsedIsAbsolute | scripts/fallback_proxy.js:357-358 | A Location the URL parser read a scheme from is absolute and not `/…` |
| Redirect.RelativeRedirectUsesBasePath | fallback_proxy.js:439-456 | A `/…` Location through the legacy rewrite is `buildProxyBasePath` followed by the location if and only if the host passed as `originalTarget.host` is the parsed target's `host` text |
| Redirect.LegacyHttpsPortLost | fallback_proxy.js:465-468 | As written: an https redirect to a port other than 443 is rewritten without a prefix, and the legacy parser then re-reads it as http |
| Redirect.LegacyHttpsPortLostExample | fallback_proxy.js:465-468 | `https://media.example.com:8920/web` meets every condition of the lemma above |
| Redirect.MediaExampleNotBlocked | fallback_proxy.js:461 | The example host is not on the block list |
| Redirect.FixedKeepsScheme | fallback_proxy.js:458-468 | Corrected: with the scheme always written, the legacy parser recovers the redirect's own scheme and host whatever the port |
| Redirect.FixedRelativeKeepsProtocol | fallback_proxy.js:451-455 | Corrected: a `/…` redirect keeps the current protocol through the legacy parser |
| Negotiator.PortKeyInjective | scripts/fallback_proxy.js:152 | `port \|\| 'default'`: two keys are equal iff the ports are equal, counting a missing port as 0 |
| Negotiator.CacheKeyInjective | scripts/fallback_proxy.js:151-161 | For hostnames without `:`, the cache key identifies the hostname and the port (0 and "no port" share a key) |
| Negotiator.CacheKeySplit | emby-cf/emby-cf.js:115-125 | The first `:` of a key ends the hostname and the port key follows it |
| Negotiator.ProbeDecides | scripts/fallback_proxy.js:183-207 | When hint, standard port and memory give no answer and KV misses, any HEAD answer outside 500..599 (a redirect or a 4xx included) resolves to https, and a 5xx answer or a thrown request to http; that protocol is stored in memory with the current time and written to KV under the `proto_` key with the TTL |
| Negotiator.ProtocolCache.constructor | scripts/fallback_proxy.js:55 | The cache starts empty, with no KV writes |
| Negotiator.ProtocolCache.GetCached | scripts/fallback_proxy.js:151-155 | Returns the stored protocol iff the key is present and `now - ts < TTL*1000` |
| Negotiator.ProtocolCache.SetCache | scripts/fallback_proxy.js:157-161 | Overwrites the entry with the protocol and the current time, and appends one KV write with the `proto_` key and the TTL |
| Negotiator.ProtocolCache.ResolveProtocol | scripts/fallback_proxy.js:164-191 | Returns the protocol and source of the resolution specification, and leaves exactly its memory and KV writes |
| Negotiator.ResolvePrecedence | emby-cf/emby-cf.js:127-134 | The hint wins, then 443 gives https and 80 gives http; those three steps read and write nothing |
| Negotiator.FreshEntryWins | scripts/fallback_proxy.js:172-174 | A fresh memory entry answers, whatever KV or the probe would say, and memory is unchanged |
| Negotiator.StaleEntryIgnored | emby-cf/emby-cf.js:118 | An entry older than the TTL is ignored; the answer comes from KV or the probe and is re-stamped |
| Negotiator.OnlyProbeWritesKv | scripts/fallback_proxy.js:176-190 | A KV write happens iff the probe decided; it is the `proto_` key with the TTL; a KV answer is copied into memory only |
| Negotiator.ResolveFrame | scripts/fallback_proxy.js:157-191 | Resolution changes no other key of the cache |
| Negotiator.ResolveIdempotentWithinTtl | scripts/fallback_proxy.js:151-191 | A second resolution within the TTL of the first's store returns the same protocol from memory, with no KV read, probe or write |
| Negotiator.DowngradeIsSticky | scripts/fallback_proxy.js:242-252 | After `setCache(…, 'http')`, resolutions without hint or standard port answer http until the TTL runs out |
| HeaderPolicy.Headers.constructor | scripts/fallback_proxy.js:283 | A new `Headers` is empty |
| HeaderPolicy.Headers.Set | scripts/fallback_proxy.js:287 | `set` stores the value under the lower-cased name and changes nothing else |
| HeaderPolicy.ScanPatterns | scripts/fallback_proxy.js:262-264 | The loop finds a hit iff some pattern occurs in the path |
| HeaderPolicy.IsMediaRequest | emby-cf/emby-cf.js:210-215 | True iff the path contains a media pattern (case-sensitive) or an Emby/MediaBrowser token header is present and non-empty |
| HeaderPolicy.IsStreamRequest | emby-cf/emby-cf.js:217-221 | True iff the path contains a stream pattern or the content type contains `video/` or `audio/` |
| HeaderPolicy.MatchesAnyExtend | scripts/fallback_proxy.js:263 | Substring classification survives any text around the path |
| HeaderPolicy.AudioPathIsBoth | scripts/fallback_proxy.js:269 | A path containing `/Audio/` is both a media and a stream path |
| HeaderPolicy.BuildHeaders | scripts/fallback_proxy.js:282-303 | The method leaves exactly the header map of the forwarding specification, in a fresh object |
| HeaderPolicy.ForwardedHeadersPolicy | emby-cf/emby-cf.js:231-252 | No skip-listed header is copied; every other request header is; `host` is the target host; `x-forwarded-proto` is the protocol; the client-IP headers appear iff the request is not media; `user-agent` defaults only when absent; nothing else is added |
| HeaderPolicy.ProcessResponseHeaders | emby-cf/emby-cf.js:254-281 | The method leaves exactly the response-header specification: filter, `Accept-Ranges`, CORS and protocol marker, rewritten Location |
| HeaderPolicy.CopyResponseHeaders | scripts/fallback_proxy.js:309-316 | The `forEach` copy leaves exactly the kept upstream headers |
| HeaderPolicy.SetLocation | scripts/fallback_proxy.js:330-333 | The redirect step sets exactly the rewritten Location |
| HeaderPolicy.SetCors | scripts/fallback_proxy.js:322-327 | The six `set` calls leave exactly the CORS specification |
| HeaderPolicy.FilteredResponsePolicy | emby-cf/emby-cf.js:258-269 | CSP never survives; other responses lose every `REMOVE_HEADERS` entry; stream/media responses keep all else and gain `Accept-Ranges: bytes` when absent; no other header is invented |
| HeaderPolicy.CorsPolicy | emby-cf/emby-cf.js:271-276 | Allow-Origin echoes a non-empty Origin, else `*`; credentials, methods and `X-Proxy-Protocol` are set; all other headers are left alone |
| HeaderPolicy.LocationPolicy | emby-cf/emby-cf.js:278-281 | Only a 301/302/303/307/308 with a non-empty Location gets it replaced by `rewriteUrl`; otherwise nothing changes |
| HeaderPolicy.PassThroughKeepsFrameOptions | scripts/fallback_proxy.js:311-315 | An upstream `x-frame-options` survives iff the response is stream or media |
| Gateway.AtMostOneRetry | emby-cf/emby-cf.js:187-205 | One or two fetches; a second one iff https was chosen without a hint and the first threw or hit 525/526/527; the retry is over http |
| Gateway.HintNeverRetries | scripts/fallback_proxy.js:241-247 | With a user hint, a throw is a 502 and any status, TLS errors included, is passed on |
| Gateway.RetryForwardedProto | emby-cf/emby-cf.js:190-205 | After a TLS-error status the retry sends `X-Forwarded-Proto: http`; after a throw it still sends https |
| Gateway.HandleProxy | scripts/fallback_proxy.js:209-259 | The handler's reply, cache and KV writes are those of the `handleProxy` specification |
| Gateway.Proxy | scripts/fallback_proxy.js:225-258 | Resolve, classify, build headers, fetch with downgrade and process the response: the reply and cache of the specification |
| Gateway.ProxySpecParts | emby-cf/emby-cf.js:179-207 | The proxy specification in terms of resolution, downgrade and response processing |
| Gateway.FetchWithDowngrade | emby-cf/emby-cf.js:187-205 | The forwarding outcome; the cache gets `http` and one KV write iff a downgrade happens, and is untouched otherwise; the sent headers differ only in `x-forwarded-proto` |
| Gateway.Respond | scripts/fallback_proxy.js:236-258 | The reply is the one of the forwarding outcome |
| Gateway.ForwardedProtoSet | scripts/fallback_proxy.js:291 | The built headers carry `x-forwarded-proto` for the resolved protocol |
| Gateway.RejectedBeforeResolving | emby-cf/emby-cf.js:164-177 | No target gives the home page, a blocked host the blocked page, and a host outside a non-empty whitelist a 403; none of these touches the cache |
| Gateway.ProxiedReportsProtocol | scripts/fallback_proxy.js:226-258 | A proxied reply fetched `protocol://host path search` with the protocol it reports in `X-Proxy-Protocol`; `Host` upstream is the target host; a hint is always obeyed |
| Gateway.DowngradeRemembered | emby-cf/emby-cf.js:191-205 | On a port other than 443 and 80, after a downgrade the cache holds http with the downgrade time, the last KV write is the `proto_` key with http, and any later request without a hint within the TTL resolves to http |
| Gateway.Port443DowngradeForgotten | scripts/fallback_proxy.js:164-170 | On port 443 the cache is never read: after a downgrade the next request without a hint tries https again |
| Gateway.RetryRejectionEscapes | emby-cf/emby-cf.js:59-72 | As written, when a downgrade's http retry also throws, `handleRequest` gives no response of its own, although its `catch` would answer 500 |
| Gateway.AwaitedAlwaysAnswers | scripts/fallback_proxy.js:89-108 | Corrected with `await`: every reply of `handleProxy` becomes a status, the same one wherever the handler already answered, and 500 exactly where the promise used to be rejected |
| ProxyList.MatchTaggedIff | scripts/fallback_proxy.js:408 | `/^([\d.]+)#(\w+)$/` matches a line iff it is `ip#region` with a non-empty `[\d.]+` ip and `\w+` region |
| ProxyList.LookupFinds | scripts/fallback_proxy.js:431 | An object-literal lookup finds a value iff some entry has the key, and then it is the value of the last such entry, since a later duplicate key replaces an earlier one |
| ProxyList.LookupAt | scripts/fallback_proxy.js:431 | An entry answers a lookup of its key when no later entry repeats the key |
| ProxyList.GuessRegionPrecedence | scripts/fallback_proxy.js:416-550 | For every dotted quad: the three-octet table's region when it has the prefix, otherwise the two-octet table's; `XX` iff neither table has the prefix |
| ProxyList.Map2NeverUnknown | scripts/fallback_proxy.js:434-548 | No region of the two-octet table is `XX` |
| ProxyList.ThreeOctetTableWins | scripts/fallback_proxy.js:422-431 | The three-octet table is consulted first: `198.41.214.x` is `CF-EU` |
| ProxyList.TwoOctetEntry | scripts/fallback_proxy.js:434-548 | …although `198.41` is `CF-US` in the two-octet table |
| ProxyList.LegacyCloudflareRange | fallback_proxy.js:643-663 | Every dotted quad with first octet 104 is `CF` under `guessRegionByIP` |
| ProxyList.ParseOne | scripts/fallback_proxy.js:406-411 | The loop body yields exactly the parse of the trimmed line |
| ProxyList.ParseLines | fallback_proxy.js:620-637 | The loop pushes exactly the parsed entries, in order |
| ProxyList.ParseProxyList | scripts/fallback_proxy.js:403-414 | `parseProxyList` is the parse of the `\n`-split text, current or legacy variant |
| ProxyList.SomesBounds | scripts/fallback_proxy.js:405-412 | At most one entry per line, and each is the value of one line's result |
| ProxyList.SomesAll | scripts/fallback_proxy.js:405-412 | When every line yields an entry, all are kept in order |
| ProxyList.ParseLineIp | scripts/fallback_proxy.js:408-411 | Every entry a line yields has a non-empty `[\d.]+` address |
| ProxyList.ParsedLinesBounds | fallback_proxy.js:616-640 | At most one entry per line, each with a `[\d.]+` address |
| ProxyList.ParseFormattedLine | scripts/fallback_proxy.js:406-409 | An `ip#REGION` line is already trimmed and parses back to its entry, in both variants |
| ProxyList.ParseFormattedLines | scripts/fallback_proxy.js:403-414 | Tagged entries written one per line parse back unchanged |
| ProxyList.UploadRoundTrip | scripts/fallback_proxy.js:563 | Entries joined with newlines as the upload text parse back to the same list |
| ProxyList.LegacyAcceptsMore | fallback_proxy.js:624-636 | Every line the current parser accepts, the legacy one (which strips white space first) accepts with the same address |
| ProxyList.PrioritiesAgree | fallback_proxy.js:772-784 | The two variants choose the same priority list except for AR, ES, SE, TH and VN, which only the legacy groups place |
| ProxyList.WithRankRanks | scripts/fallback_proxy.js:583-584 | The entries a rank filter keeps all have that rank |
| ProxyList.SortByRankPermutation | scripts/fallback_proxy.js:582-585 | The sort is a permutation of its input |
| ProxyList.SortByRankSorted | fallback_proxy.js:786-792 | …ordered by nondecreasing rank (list index, 999 when unlisted) |
| ProxyList.SortByRankStable | fallback_proxy.js:786-792 | …and stable: the entries of each rank keep their input order |
| ProxyList.TakeSortedCorrect | scripts/fallback_proxy.js:582-585 | The first `n` of the sort: `min(n, len)` entries, drawn from the input, rank-sorted, and none left out ranks better than one chosen |
| ProxyList.SelectProxiesCorrect | scripts/fallback_proxy.js:576-586 | `selectProxies`/`selectProxiesByRegion` return `min(limit \|\| 5, len)` input entries, best-ranked first for the country's list, none left out ranking better |
| Aggregate.Address | scripts/aggregate.py:100-105 | The address starts with the ip and equals it iff the port is missing or 0 |
| Aggregate.AddressInjective | scripts/aggregate.py:100-105 | For colon-free ips, equal addresses iff equal ips and equal effective ports |
| Aggregate.LocationParts | scripts/aggregate.py:107-117 | At most two non-empty words: the country first, then the city or else the region; none iff all three are empty |
| Aggregate.LocationRoundTrip | scripts/aggregate.py:117 | Without spaces in the fields, the location text splits back into its parts |
| Aggregate.NetTypeEn | scripts/aggregate.py:119-127 | The dictionary lookup with default `unknown` gives `datacenter` iff the type is 机房, `residential` iff it is 家宽, and `unknown` for every other text, the empty one included |
| Aggregate.NetTypeEnClasses | scripts/aggregate.py:119-127 | Two types get the same English name iff they are equal or neither is 机房 or 家宽 |
| Aggregate.PyIntOfDigits | scripts/aggregate.py:298 | `int()` of a run of ASCII digits is its decimal value |
| Aggregate.PortNumber | scripts/aggregate.py:306-312 | A valid port's number lies in 1..65535 |
| Aggregate.PortDigits | scripts/aggregate.py:306-312 | For a run of digits, valid iff its value is in 1..65535 |
| Aggregate.AsWrittenValidIff | scripts/aggregate.py:291-303 | As written, among dotted digit runs: valid iff every part ≤ 255, the first part is not the text `0`, and the text is not `255.255.255.255` |
| Aggregate.ZeroNetworkAccepted | scripts/aggregate.py:301 | `00.1.2.3` passes `is_valid_ip` as written |
| Aggregate.FixedValidIff | scripts/aggregate.py:291-303 | Corrected: valid iff every octet ≤ 255, the first octet's value is not 0 and the address is not the broadcast address, judged by value |
| Aggregate.CorrectedRefusesMore | scripts/aggregate.py:291-303 | Every address the corrected test accepts, `is_valid_ip` as written accepts too |
| AggregateParsers.RichLineOutcome | scripts/aggregate.py:315-370 | Blank/comment lines give nothing; the first rich pattern that matches decides, with an entry iff its ip passes `is_valid_ip` and its port is valid; only when neither matches is the proxy URL tried, giving an entry iff its address is valid; every entry is valid, has a port and is `socks5`. Stated for `is_valid_ip` as written and for the corrected test alike |
| AggregateParsers.RichLocationFields | scripts/aggregate.py:336-344 | One location word is the country; two are country and city with no region; three or more are country, region, city |
| AggregateParsers.RichLocationShown | scripts/aggregate.py:336-344 | The entry's `location` is `Unknown` without words, the word itself for one, and otherwise the first word and the city word (second of two, third of three or more) |
| AggregateParsers.ParseSimpleLine | scripts/aggregate.py:373-416 | The loops build exactly the line's entry list, filtering with `is_valid_ip` as written (or the corrected test) |
| AggregateParsers.SimpleLineSpec | scripts/aggregate.py:373-416 | Blank/comment lines give `[]`; a proxy-URL match gives at most one entry; a port-less entry appears only when there is no proxy URL and no valid `ip:port` entry, so all entries have a port or none does; every entry passes `is_valid_ip` (or the corrected test, when that is the filter) and has a valid port if any |
| AggregateParsers.PortEntriesValid | scripts/aggregate.py:395-403 | Every loose `ip:port` entry passes the ip test in use (`is_valid_ip` as written, or corrected) and has a port in 1..65535 |
| AggregateParsers.BareEntriesValid | scripts/aggregate.py:405-414 | Every bare-ip entry passes the ip test in use (`is_valid_ip` as written, or corrected) and has no port |
| AggregateParsers.ParseTextContent | scripts/aggregate.py:419-424 | The loop concatenates every line's entries in order, with the same ip test for every line |
| AggregateParsers.TextEntriesValid | scripts/aggregate.py:419-424 | Every entry of a text passes the ip test in use and carries the text's source and category |
| AggregateDedup.Fold | scripts/aggregate.py:497-516 | Every listed key of the `seen` dictionary is present in it |
| AggregateDedup.DeduplicateEntries | scripts/aggregate.py:495-518 | The loop over `seen` returns exactly the deduplication specification |
| AggregateDedup.Addresses | scripts/aggregate.py:500 | One address per entry, in order |
| AggregateDedup.FirstOccurrencesSpec | scripts/aggregate.py:495-518 | First occurrences: the same elements, each once, no more than the input |
| AggregateDedup.FoldDomain | scripts/aggregate.py:502-504 | The dictionary's keys are exactly the input addresses, and it lists each of them |
| AggregateDedup.FoldKeyAddress | scripts/aggregate.py:502-516 | Each key is the address of the entry kept under it |
| AggregateDedup.FoldKeys | scripts/aggregate.py:502-518 | The keys are the input addresses in first-occurrence order |
| AggregateDedup.DeduplicatedSpec | scripts/aggregate.py:495-518 | The output has pairwise distinct addresses, covers every input address, follows first-occurrence order and is no longer than the input |
| AggregateDedup.MergeSpec | scripts/aggregate.py:506-516 | A merge keeps the address, has a country iff either entry had one, and takes each other field from one of the two |
| AggregateDedup.CountryKnownSnoc | scripts/aggregate.py:499 | Some entry of a longer list gives a country for an address iff the shorter list does or the last entry does |
| AggregateDedup.CountryKnownAddress | scripts/aggregate.py:500 | An address with a known country is one of the input addresses |
| AggregateDedup.FoldCountry | scripts/aggregate.py:506-516 | The kept entry has a country iff some input entry with its address had one |
| AggregateDedup.DeduplicatedCountry | scripts/aggregate.py:495-518 | After deduplication an entry has a country iff some input entry with its address had one |
| AggregateSort.ParseAllSpec | scripts/aggregate.py:525 | The list comprehension succeeds iff every element parses, and then holds each element's value |
| AggregateSort.OctetValuesSpec | scripts/aggregate.py:525 | `[int(x) for x in ip.split('.')]` succeeds iff every part is an integer, and holds their values |
| AggregateSort.ListLeTotal | scripts/aggregate.py:526 | Python's list `<=` is total |
| AggregateSort.ListLeAntisymmetric | scripts/aggregate.py:526 | …antisymmetric… |
| AggregateSort.ListLeTransitive | scripts/aggregate.py:526 | …and transitive |
| AggregateSort.KeyLeTotal | scripts/aggregate.py:523-528 | The sort-key order is total |
| AggregateSort.KeyLeTransitive | scripts/aggregate.py:523-528 | The sort-key order is transitive |
| AggregateSort.Insert | scripts/aggregate.py:530 | Insertion adds exactly one element |
| AggregateSort.InsertPermutation | scripts/aggregate.py:530 | Insertion adds the element to the multiset and nothing else |
| AggregateSort.InsertSorted | scripts/aggregate.py:530 | Insertion keeps a sorted list sorted |
| AggregateSort.SortEntriesSpec | scripts/aggregate.py:521-530 | `sort_entries` returns a permutation of its input ordered by the key (numeric octets, then port or 0) |
| AggregateSort.UnparsedLast | scripts/aggregate.py:526-528 | Entries whose ip does not parse come after every numeric one |
| AggregateSort.ValidIpNumericKey | scripts/aggregate.py:291-303 | An ip that passes `is_valid_ip`, as written or corrected, has a numeric key of four octets in 0..255 |
| NodeProxy.ProxyResponse.constructor | proxy-server.js:33 | The response header object holds the given headers |
| NodeProxy.ProxyResponse.OnProxyRes | proxy-server.js:33-39 | The loop deletes each listed header, then allow-origin is set: the result is the cleaned-header specification |
| NodeProxy.IncomingMessage.constructor | proxy-server.js:41 | The request holds the given url |
| NodeProxy.HandleRequest | proxy-server.js:41-79 | Returns the request outcome (status page, forward, 403, parser failure) and leaves `req.url` as the forwarded path, unchanged for the status page |
| NodeProxy.HandleUpgrade | proxy-server.js:82-91 | The upgrade target is the protocol plus host part, and `req.url` becomes the upgrade path |
| NodeProxy.FailureAnswers | proxy-server.js:24-79 | The client gets 502 iff the request was forwarded and the exchange failed (or the upstream itself answered 502); a forwarded request otherwise gets the upstream status; the status page, the 403 and the unhandled rejection do not depend on the exchange; no status at all iff the handler's promise rejected; a failed upgrade (a socket, without `writeHead`) gets no status |
| NodeProxy.HomeNeverProxied | proxy-server.js:45-48 | The status page is the outcome iff the url is `/` or empty, so it is never proxied |
| NodeProxy.SplitSpec | proxy-server.js:53-63 | Host part plus rest is the path; the host part has no `/`; the rest is empty or starts with `/`; the forwarded url always starts with `/` |
| NodeProxy.TargetScheme | proxy-server.js:59-60 | The target is `https://` plus the host part iff the host part contains `443`, else `http://` |
| NodeProxy.BlockedNotForwarded | proxy-server.js:69-78 | A blocked hostname gets 403 and is not forwarded; any other parsable target is forwarded to exactly the target url |
| NodeProxy.UpgradeAgrees | proxy-server.js:54-88 | The upgrade handler's `req.url` equals the request handler's, including `/` for a bare host |
| NodeProxy.CleanHeadersSpec | proxy-server.js:34-38 | No listed header remains; allow-origin is `*`; every other header is kept unchanged; nothing else is added; cleaning twice changes nothing more |
| Strings.FirstIndex | scripts/fallback_proxy.js:131 | `indexOf` gives the first position of the character, or -1 iff it is absent |
| Strings.Before | scripts/fallback_proxy.js:135 | `split(':')[0]` is a `:`-free prefix, the whole string or cut at a `:` |
| Strings.JoinSplit | scripts/fallback_proxy.js:404 | Joining the parts of a split gives the text back |
| Strings.SplitJoin | scripts/fallback_proxy.js:404 | Splitting separator-free parts joined by the separator gives the parts back |
| Strings.NatToStringValue | scripts/aggregate.py:104 | The decimal rendering of a number reads back as that number |
| Strings.StripSpec | scripts/fallback_proxy.js:406 | `trim`/`strip` leaves no white space at either end, returns a contiguous part of the input, and is empty only for all-space input |
| Strings.RemoveJsSpace | fallback_proxy.js:630 | `replace(/\s+/g, '')` removes every white-space character and keeps every other one |
| Strings.PyWords | scripts/aggregate.py:336 | `split()` gives non-empty words without white space |

## Left out

- Network I/O is not modelled: the fetches, the KV reads and writes, the HEAD probe, the GitHub mirror refresh and the scheduled event. Their results are inputs (`FetchOutcome`, `kv`, `ProbeOutcome`), and KV writes are recorded as a list. The clock is the parameters `now`/`stamp`.
- `probeHttps`'s request itself is not modelled; only how its outcome is read.
- The platform URL parser (`new URL`) is an input. `Redirect.ValidUrl`/`ParsedFrom` and `HeaderPolicy.SoundParser` describe what the rewriting reads of it. An exception from it is `None`.
  - In the Node server, an exception in the blocklist step (`new URL(targetUrl)` at line 70) is the outcome `Unhandled`.
  - The `catch` at lines 64-67 is unreachable with string urls and is not modelled.
- The Python regular expressions of `scripts/aggregate.py` (lines 150-188) are inputs: `Patterns` gives the first match of each `search` and all matches of each `finditer`. What is proved holds for any matches.
  - The JavaScript regexes of `parseTargetUrl` and `parseProxyList` are modelled exactly.
- HTML and JSON pages, the blocked page, HTML body rewriting (`rewriteHtmlLinks` and the `text/html` branch of `processResponse`), response bodies and streaming are not modelled. Neither is WebSocket splicing (`handleWebSocket`, `proxy.ws`) beyond the upgrade handler's target split, nor `http-proxy` forwarding.
- The request method and body passing (`opts.body`), the `statusText`, and the legacy `executeProxy` response headers (`X-Proxied-By`, `X-Target-URL`) are not modelled. Neither are the legacy `CUSTOM_HEADERS` and `BLOCKED_PATHS` checks, nor the legacy upload/health/debug APIs.
- `handleUploadAPI`'s secret and method checks are not modelled; only the parse of its `data` text is (`ProxyList.UploadRoundTrip`).
- `Strings.ToLower` lowers ASCII letters only, where JavaScript's `toLowerCase` lowers every letter. The white space of JavaScript's `trim` and `\s` and of Python's `strip`, `split` and `int` is modelled in full (`Strings.JsSpace`, `Strings.PySpace`); digits are ASCII only, so the non-ASCII digits Python's `int()` accepts are not modelled.
- `IPEntry`'s validation fields (`is_valid`, `latency_ms`, `validation_error`) are not modelled; they are set only by the network probes. `to_dict`, the exporters, the HTML parser and the async validation are not modelled either.
- `parse_socks5_rich_content` and the other loops over sources in `scripts/aggregate.py` are not modelled; they only call the modelled line parsers.
- AggregateDedup.DeduplicateEntries: works on values; the Python code mutates the kept `IPEntry` in place. Every caller sees the entry through `seen` only, so no aliasing is lost for the returned list, but an input entry object that is later merged into is not shown as changed.
- AggregateDedup.Merge: follows the code, not the stated intent. In the `net_type` branch a later non-empty country, region, city or ISP OVERWRITES the kept value (`entry.x or existing.x`); blanks are not the only fields filled. A replacement by an entry with a country drops the kept `net_type`.
- AggregateSort.SortEntries: modelled as a stable insertion sort. Stability is built into `Insert`, which places an entry before equal keys while inserting from the back; it is not stated as a separate lemma.
- ProxyList.SortByRank: the comparator's ranks are modelled for priority lists shorter than 999 entries; every list in the source has at most six. A negative `limit` is not modelled; `limit` is a natural number, and 0 means the default of 5 (`limit || 5`).
- Negotiator: the cache key uses `port || 'default'`, so port 0 shares the default key; the model keeps this. Clock readings are integers; `Date.now()`'s floating point is not modelled.
- Target.ParseTarget, Negotiator.CacheKey: the port is an exact natural number, where `parseInt` (emby-cf/emby-cf.js:107) returns a double. Ports of 2^53 and above, which would collide after rounding, and ports of 10^21 and above, which `String` renders as `1e+21` in the cache key (lines 116-122), are not modelled; no fetch accepts such a port.
- Redirect.RelativeRedirectUsesBasePath: the legacy rewrite is given `originalTarget.host`, which is `new URL(targetUrl).host` (fallback_proxy.js:316, 417): the URL parser lower-cases it and drops a default port, while `buildProxyBasePath` uses the raw `parsedTarget.host`. The model takes that host as an input; the lemma states the base-path identity exactly when the two agree, and for `/media.example.com:443/x` they do not.
- Gateway.HandleProxy: a thrown retry fetch is `Unhandled`, since the source has no `catch` around it. The `try` of `handleRequest` does not catch it either, because `handleProxy`'s promise is returned without `await` (see Findings); `Gateway.RequestAnswer` models that step.
- Requests are modelled one at a time. Concurrent requests interleaving at the `await`s of `resolveProtocol` (the KV read and the probe, emby-cf/emby-cf.js:127-147) share `protocolCache`; that interleaving is not modelled.
- Redirect.RewriteAbsoluteRoundTrip, Redirect.LegacyHttpsPortLost and Redirect.FixedKeepsScheme are stated for hostnames without `:`. A bracketed IPv6 hostname is rewritten like any other (`Redirect.RewriteAbsoluteShape`), but `parseTargetUrl` splits the host at its first `:`, so no round trip is claimed for it.

## Findings

| source | as written | input that shows it | evidently intended | confidence | as-written member | corrected member |
|---|---|---|---|---|---|---|
| fallback_proxy.js:465-468 | An absolute https redirect is rewritten with no scheme prefix, and the same worker's `parseTargetUrl` reads a prefix-less host with a port other than 443 as http | Location `https://media.example.com:8920/web` becomes `/media.example.com:8920/web`, which the gateway then fetches over http | The redirect is followed with the scheme it named: write the scheme explicitly, as `rewriteUrl` of the newer workers does | not executed | Redirect.LegacyHttpsPortLost, Redirect.LegacyHttpsPortLostExample | Redirect.RewriteRedirectUrlFixed, Redirect.FixedKeepsScheme |
| scripts/aggregate.py:301 | The zero-network test looks at the text (`ip.startswith('0.')`), so a first octet written with leading zeros passes | `is_valid_ip("00.1.2.3")` is True although the first octet is 0 | Reject a first octet whose value is 0, and the broadcast address by value | not executed | Aggregate.ZeroNetworkAccepted, Aggregate.AsWrittenValidIff | Aggregate.IsValidIpFixed, Aggregate.FixedValidIff, Aggregate.CorrectedRefusesMore |
| emby-cf/emby-cf.js:68 | `return handleProxy(…)` inside the `try` of the async `handleRequest`, without `await` (also scripts/fallback_proxy.js:104) | A request without a protocol hint whose https fetch throws and whose http retry throws too: the rejection passes the `catch`, so the client gets the platform's error page instead of the JSON 500 | `return await handleProxy(…)`, so that the `catch` answers 500 | not executed | Gateway.RetryRejectionEscapes | Gateway.AwaitedAlwaysAnswers |
