/**
 * Access rules of the gateways: the blocked-domain list with its label-boundary suffix rule, the optional
 * whitelist, the order in which the two are applied, the category shown on the blocked page of the legacy
 * worker, and the plain-suffix blocklist of the Node server.
 */
module Access {
  import opened Strings

  /** `BLOCKED_DOMAINS`, the same 44 entries in all three workers. */
  const BlockedDomains: seq<string> := [
    "google.com", "google.com.hk", "google.co.jp", "googleapis.com", "gstatic.com",
    "youtube.com", "youtu.be", "ytimg.com", "googlevideo.com", "ggpht.com",
    "facebook.com", "fb.com", "fbcdn.net", "instagram.com", "cdninstagram.com",
    "whatsapp.com", "messenger.com", "twitter.com", "x.com", "twimg.com",
    "microsoft.com", "microsoftonline.com", "live.com", "outlook.com", "office.com",
    "azure.com", "bing.com", "apple.com", "icloud.com", "mzstatic.com",
    "amazon.com", "amazonaws.com", "cloudfront.net",
    "netflix.com", "nflxvideo.net", "spotify.com", "disneyplus.com",
    "cloudflare.com", "cloudflareinsights.com", "recaptcha.net",
    "paypal.com", "stripe.com", "alipay.com", "tenpay.com"
  ]

  /** `hostname === d || hostname.endsWith('.' + d)`: `hostname` is `d` or one of its subdomains. */
  predicate UnderDomain(hostname: string, d: string) {
    hostname == d || EndsWith(hostname, "." + d)
  }

  /** Some entry of `domains` covers `hostname`. */
  predicate CoveredBy(hostname: string, domains: seq<string>) {
    exists i | 0 <= i < |domains| :: UnderDomain(hostname, domains[i])
  }

  /** The blocklist decision of `isBlocked` / `isBlockedDomain`. */
  predicate Blocked(hostname: string) {
    CoveredBy(hostname, BlockedDomains)
  }

  /** The scan of `isBlocked`: stops at the first entry that covers `hostname`. */
  method IsBlocked(hostname: string) returns (blocked: bool)
    ensures blocked <==> Blocked(hostname)
  {
    blocked := FirstCover(hostname, BlockedDomains);
  }

  /** The loop shared by `isBlocked` and the whitelist check: is some entry of `domains` a match? */
  method FirstCover(hostname: string, domains: seq<string>) returns (found: bool)
    ensures found <==> CoveredBy(hostname, domains)
  {
    var i := 0;
    found := false;
    while i < |domains|
      invariant 0 <= i <= |domains|
      invariant !found
      invariant forall j | 0 <= j < i :: !UnderDomain(hostname, domains[j])
    {
      if UnderDomain(hostname, domains[i]) {
        found := true;
        return;
      }
      i := i + 1;
    }
  }

  /** The suffix rule respects label boundaries: `d` covers exactly itself and the names `x.d`. */
  lemma UnderDomainIff(hostname: string, d: string)
    ensures UnderDomain(hostname, d) <==> hostname == d || exists x :: hostname == x + "." + d
  {
    if EndsWith(hostname, "." + d) {
      var x := hostname[..|hostname| - |d| - 1];
      assert hostname == x + "." + d;
    }
    if exists x :: hostname == x + "." + d {
      var x :| hostname == x + "." + d;
      assert hostname[|hostname| - |d| - 1..] == "." + d;
    }
  }

  /** A subdomain of a blocked host is blocked. */
  lemma SubdomainOfBlocked(x: string, hostname: string)
    requires Blocked(hostname)
    ensures Blocked(x + "." + hostname)
  {
    var i :| 0 <= i < |BlockedDomains| && UnderDomain(hostname, BlockedDomains[i]);
    var d := BlockedDomains[i];
    var h := x + "." + hostname;
    UnderDomainIff(hostname, d);
    if hostname == d {
      assert h == x + "." + d;
    } else {
      var y :| hostname == y + "." + d;
      assert h == (x + "." + y) + "." + d;
    }
    UnderDomainIff(h, d);
  }

  lemma MailGoogleIsBlocked()
    ensures Blocked("mail.google.com")
  {
    assert UnderDomain("mail.google.com", BlockedDomains[0]);
  }

  /** A name that merely ends in the text of a blocked domain, without a dot before it, is not blocked. */
  lemma NotGoogleIsNotBlocked()
    ensures !Blocked("notgoogle.com")
  {
    var h := "notgoogle.com";
    assert forall k | 0 <= k < |h| && h[k] == '.' :: h[k + 1..] == "com";
    forall i | 0 <= i < |BlockedDomains| ensures !UnderDomain(h, BlockedDomains[i]) {
      BlockedDomainsExclude(i);
      NotUnderDomain(h, BlockedDomains[i]);
    }
  }

  /** Facts about the list that the concrete examples need: no entry is a bare top-level label or one of the example names. */
  lemma BlockedDomainsExclude(i: nat)
    requires i < |BlockedDomains|
    ensures |BlockedDomains[i]| != 3
    ensures BlockedDomains[i] !in {"notgoogle.com", "example.com", "media.example.com"}
  {
  }

  /** `h` lies under `d` only if `d` is `h` itself or the text after one of the dots of `h`. */
  lemma NotUnderDomain(h: string, d: string)
    requires d != h && forall k | 0 <= k < |h| && h[k] == '.' :: d != h[k + 1..]
    ensures !UnderDomain(h, d)
  {
    var k := |h| - |d| - 1;
    if 0 <= k {
      if h[k] == '.' {
        assert h[|h| - |d|..] == h[k + 1..];
        assert h[|h| - |d| - 1..] == "." + h[k + 1..];
      } else {
        assert h[k..][0] == h[k];
      }
    }
  }

  // ------------------------------------------------------------------ whitelist

  /** `ALLOWED_DOMAINS` is empty in every shipped configuration; the model keeps it a parameter. */
  predicate Whitelisted(hostname: string, allowedDomains: seq<string>) {
    |allowedDomains| == 0 || CoveredBy(hostname, allowedDomains)
  }

  /** The whitelist loop of `handleProxy` / `executeProxy`: skipped when the list is empty. */
  method CheckWhitelist(hostname: string, allowedDomains: seq<string>) returns (allowed: bool)
    ensures allowed <==> Whitelisted(hostname, allowedDomains)
  {
    if |allowedDomains| > 0 {
      allowed := FirstCover(hostname, allowedDomains);
    } else {
      allowed := true;
    }
  }

  datatype Verdict = Pass | BlockedPage | NotAllowed

  /** The blocklist is consulted first (the blocked page), then the whitelist (a 403 "Domain not allowed"). */
  function Decide(hostname: string, allowedDomains: seq<string>): (v: Verdict) {
    if Blocked(hostname) then BlockedPage
    else if !Whitelisted(hostname, allowedDomains) then NotAllowed
    else Pass
  }

  /** The access check as the gateways run it: the two scans, in order. */
  method CheckAccess(hostname: string, allowedDomains: seq<string>) returns (v: Verdict)
    ensures v == Decide(hostname, allowedDomains)
  {
    var blocked := IsBlocked(hostname);
    if blocked {
      return BlockedPage;
    }
    var allowed := CheckWhitelist(hostname, allowedDomains);
    v := if allowed then Pass else NotAllowed;
  }

  /** A blocked host gets the blocked page even when the whitelist names it; a host passes only when it is neither blocked nor outside a non-empty whitelist. */
  lemma DecidePrecedence(hostname: string, allowedDomains: seq<string>)
    ensures Blocked(hostname) ==> Decide(hostname, allowedDomains) == BlockedPage
    ensures Decide(hostname, allowedDomains) == Pass <==>
      !Blocked(hostname) && (|allowedDomains| == 0 || CoveredBy(hostname, allowedDomains))
    ensures Decide(hostname, allowedDomains) == NotAllowed ==> |allowedDomains| > 0
  {
  }

  // ------------------------------------------------------------------ blocked-page category (legacy worker)

  datatype Category = Category(name: string, keywords: seq<string>)

  /** The categories of `getBlockedReason`, in declaration order. */
  const Categories: seq<Category> := [
    Category("Google", ["google", "youtube", "gstatic", "googleapis", "googlevideo", "ytimg", "ggpht"]),
    Category("Meta", ["facebook", "fb", "instagram", "whatsapp", "messenger", "fbcdn", "cdninstagram"]),
    Category("Microsoft", ["microsoft", "live", "outlook", "office", "microsoftonline", "azure", "bing"]),
    Category("Apple", ["apple", "icloud", "mzstatic"]),
    Category("Twitter/X", ["twitter", "x.com", "twimg"]),
    Category("Amazon", ["amazon", "amazonaws", "cloudfront"]),
    Category("流媒体", ["netflix", "nflxvideo", "spotify", "disneyplus"])
  ]

  const DefaultCategory: string := "受保护网站"

  /** Some keyword of `c` occurs in `hostname`. */
  predicate Mentions(hostname: string, c: Category) {
    exists k | 0 <= k < |c.keywords| :: Contains(hostname, c.keywords[k])
  }

  /** The two nested loops of `getBlockedReason`: the first category in order with a keyword that occurs in the hostname. */
  method GetBlockedReason(hostname: string) returns (category: string)
    ensures category == DefaultCategory <==> forall i | 0 <= i < |Categories| :: !Mentions(hostname, Categories[i])
    ensures category != DefaultCategory ==> exists i | 0 <= i < |Categories| ::
      && category == Categories[i].name
      && Mentions(hostname, Categories[i])
      && forall j | 0 <= j < i :: !Mentions(hostname, Categories[j])
  {
    var i := 0;
    while i < |Categories|
      invariant 0 <= i <= |Categories|
      invariant forall j | 0 <= j < i :: !Mentions(hostname, Categories[j])
    {
      var cat := Categories[i];
      var k := 0;
      while k < |cat.keywords|
        invariant 0 <= k <= |cat.keywords|
        invariant forall m | 0 <= m < k :: !Contains(hostname, cat.keywords[m])
      {
        var hit := ContainsTest(hostname, cat.keywords[k]);
        if hit {
          assert Categories[i].name != DefaultCategory;
          return cat.name;
        }
        k := k + 1;
      }
      i := i + 1;
    }
    return DefaultCategory;
  }

  /** `hostname.indexOf(sub) !== -1`, computed by scanning the start positions. */
  method ContainsTest(s: string, sub: string) returns (found: bool)
    ensures found <==> Contains(s, sub)
  {
    var i := 0;
    while i + |sub| <= |s|
      invariant 0 <= i
      invariant forall j | 0 <= j < i :: !OccursAt(s, sub, j)
    {
      if s[i..i + |sub|] == sub {
        assert OccursAt(s, sub, i);
        return true;
      }
      i := i + 1;
    }
    return false;
  }

  // ------------------------------------------------------------------ Node server blocklist

  /** `CONFIG.BLOCKED_DOMAINS` of proxy-server.js. */
  const NodeBlockedDomains: seq<string> := ["google.com", "youtube.com", "facebook.com", "twitter.com"]

  /** `BLOCKED_DOMAINS.some(d => hostname.endsWith(d))`: a plain suffix test, with no label boundary. */
  predicate NodeBlocked(hostname: string) {
    exists i | 0 <= i < |NodeBlockedDomains| :: EndsWith(hostname, NodeBlockedDomains[i])
  }

  /** The Node rule blocks everything the worker rule blocks for the same four domains, and more. */
  lemma NodeBlocksSupersetOfWorker(hostname: string)
    requires CoveredBy(hostname, NodeBlockedDomains)
    ensures NodeBlocked(hostname)
  {
    var i :| 0 <= i < |NodeBlockedDomains| && UnderDomain(hostname, NodeBlockedDomains[i]);
    var d := NodeBlockedDomains[i];
    if hostname != d {
      assert hostname[|hostname| - |d|..] == (hostname[|hostname| - |d| - 1..])[1..];
    }
  }

  /** The difference: `notgoogle.com` is blocked by the Node server and not by the workers. */
  lemma NodeBlocksWithoutLabelBoundary()
    ensures NodeBlocked("notgoogle.com") && !Blocked("notgoogle.com")
  {
    assert "notgoogle.com"[13 - 10..] == NodeBlockedDomains[0];
    NotGoogleIsNotBlocked();
  }
}
