/**
 * The line parsers of the aggregation script. The regular expressions are the script's own, but their matching
 * is supplied from outside as a `Patterns` value: what each expression's `search` or `finditer` finds in a line.
 * What the parsers do with those matches — the order in which they try them, the checks, the fields they fill —
 * is the model.
 */
module AggregateParsers {
  import opened Wrappers
  import opened Strings
  import opened Aggregate

  /** The groups of a rich SOCKS5 match: ip, port, network type, location text, ISP. */
  datatype RichMatch = RichMatch(ip: string, port: string, netType: string, location: string, isp: string)

  /** The ip and port groups of a proxy-URL or loose `ip:port` match. */
  datatype IpPort = IpPort(ip: string, port: string)

  /**
   * The matches found in a stripped line: the first match of the rich SOCKS5 pattern, of its looser
   * alternative and of the proxy-URL pattern, and every match of the loose `ip:port` and bare-ip patterns.
   */
  datatype Patterns = Patterns(
    richPrimary: string -> Option<RichMatch>,
    richAlt: string -> Option<RichMatch>,
    proxyUrl: string -> Option<IpPort>,
    loose: string -> seq<IpPort>,
    pure: string -> seq<string>)

  /** A line the parsers ignore once stripped: empty, or a `#` comment. */
  predicate Skipped(t: string) {
    t == [] || StartsWith(t, "#")
  }

  /**
   * The validation every extracted address must pass. The script runs with `corrected` false (`is_valid_ip` as
   * written); `corrected` selects the IPv4 test as evidently intended.
   */
  predicate ValidAddress(m: IpPort, corrected: bool) {
    IpAccepted(m.ip, corrected) && IsValidPort(m.port)
  }

  function PortEntry(m: IpPort, source: string, category: string): IPEntry
    requires IsValidPort(m.port)
  {
    IPEntry(m.ip, Some(PortNumber(m.port)), source, category, "", "", "", "", "")
  }

  function BareEntry(ip: string, source: string, category: string): IPEntry {
    IPEntry(ip, None, source, category, "", "", "", "", "")
  }

  /** A well-formed entry from a source: a valid ip, and a valid port when it has one. */
  predicate ValidEntry(e: IPEntry, source: string, category: string, corrected: bool) {
    IpAccepted(e.ip, corrected) && e.source == source && e.category == category
    && (e.port.Some? ==> 1 <= e.port.value <= 65535)
  }

  // ---------------------------------------------------------------- rich SOCKS5 lines

  /** The entry a valid rich match describes: location words are country, region, city, or country, city. */
  function RichEntry(m: RichMatch, source: string): IPEntry
    requires IsValidPort(m.port)
  {
    var words := PyWords(m.location);
    var country := if |words| > 0 then words[0] else "";
    var region := if |words| > 1 then words[1] else "";
    var city := if |words| > 2 then words[2] else "";
    IPEntry(m.ip, Some(PortNumber(m.port)), source, "socks5",
      country, if |words| == 2 then "" else region, if |words| == 2 then region else city,
      PyStrip(m.isp), PyStrip(m.netType))
  }

  /** `parse_socks5_rich_line`: a rich match first, then a plain proxy URL. */
  function ParseSocks5RichLine(line: string, source: string, pats: Patterns, corrected: bool): Option<IPEntry> {
    var t := PyStrip(line);
    if Skipped(t) then None
    else
      var m := if pats.richPrimary(t).Some? then pats.richPrimary(t) else pats.richAlt(t);
      if m.Some? then
        if !IpAccepted(m.value.ip, corrected) || !IsValidPort(m.value.port) then None
        else Some(RichEntry(m.value, source))
      else
        match pats.proxyUrl(t)
        case Some(u) => if ValidAddress(u, corrected) then Some(PortEntry(u, source, "socks5")) else None
        case None => None
  }

  /**
   * What a rich line yields: nothing for blank and comment lines; when a rich pattern matches, the entry
   * exactly when its ip and port are valid (a plain proxy URL on the same line is then not considered);
   * otherwise the plain proxy URL's entry when it is valid. Every entry is valid and in category `socks5`.
   */
  lemma RichLineOutcome(line: string, source: string, pats: Patterns, corrected: bool)
    ensures var t := PyStrip(line);
      var r := ParseSocks5RichLine(line, source, pats, corrected);
      && (Skipped(t) ==> r == None)
      && (r.Some? ==> ValidEntry(r.value, source, "socks5", corrected) && r.value.port.Some?)
      && (!Skipped(t) && pats.richPrimary(t).Some? ==>
            (r.Some? <==> IpAccepted(pats.richPrimary(t).value.ip, corrected) && IsValidPort(pats.richPrimary(t).value.port)))
      && (!Skipped(t) && pats.richPrimary(t).None? && pats.richAlt(t).Some? ==>
            (r.Some? <==> IpAccepted(pats.richAlt(t).value.ip, corrected) && IsValidPort(pats.richAlt(t).value.port)))
      && (!Skipped(t) && pats.richPrimary(t).None? && pats.richAlt(t).None? ==>
            (r.Some? <==> pats.proxyUrl(t).Some? && ValidAddress(pats.proxyUrl(t).value, corrected)))
  {
  }

  /**
   * How the location words are spread over the fields: one word is the country; two words are country and
   * city with no region; three or more are country, region and city, the rest ignored.
   */
  lemma RichLocationFields(m: RichMatch, source: string)
    requires IsValidPort(m.port)
    ensures var words := PyWords(m.location);
      var e := RichEntry(m, source);
      && (|words| == 0 ==> e.country == "" && e.region == "" && e.city == "")
      && (|words| == 1 ==> e.country == words[0] && e.region == "" && e.city == "")
      && (|words| == 2 ==> e.country == words[0] && e.region == "" && e.city == words[1])
      && (|words| >= 3 ==> e.country == words[0] && e.region == words[1] && e.city == words[2])
  {
  }

  /**
   * The `location` text of a rich entry is the first location word followed by the city: the third word
   * when there are three or more, the second when there are two.
   */
  lemma RichLocationShown(m: RichMatch, source: string)
    requires IsValidPort(m.port)
    ensures var words := PyWords(m.location);
      var loc := Location(RichEntry(m, source));
      && (|words| == 0 ==> loc == "Unknown")
      && (|words| == 1 ==> loc == words[0])
      && (|words| == 2 ==> loc == words[0] + " " + words[1])
      && (|words| >= 3 ==> loc == words[0] + " " + words[2])
  {
    var words := PyWords(m.location);
    var e := RichEntry(m, source);
    if |words| >= 2 {
      var c := if |words| == 2 then words[1] else words[2];
      assert LocationParts(e) == [words[0], c];
      JoinTwo(words[0], c, ' ');
    } else if |words| == 1 {
      assert LocationParts(e) == [words[0]];
    }
  }

  lemma JoinTwo(a: string, b: string, sep: char)
    ensures Join([a, b], sep) == a + [sep] + b
  {
    assert [a, b][1..] == [b];
  }

  // ---------------------------------------------------------------- simple lines

  /** The entries the loose `ip:port` matches give, in order: the valid ones. */
  function PortEntries(ms: seq<IpPort>, source: string, category: string, corrected: bool): seq<IPEntry> {
    if ms == [] then []
    else
      var m := ms[|ms| - 1];
      PortEntries(ms[..|ms| - 1], source, category, corrected)
      + (if ValidAddress(m, corrected) then [PortEntry(m, source, category)] else [])
  }

  /** The entries the bare-ip matches give, in order: the valid ones, without a port. */
  function BareEntries(ips: seq<string>, source: string, category: string, corrected: bool): seq<IPEntry> {
    if ips == [] then []
    else
      var ip := ips[|ips| - 1];
      BareEntries(ips[..|ips| - 1], source, category, corrected)
      + (if IpAccepted(ip, corrected) then [BareEntry(ip, source, category)] else [])
  }

  /** What `parse_simple_line` returns. */
  function SimpleLineEntries(line: string, source: string, category: string, pats: Patterns, corrected: bool): seq<IPEntry> {
    var t := PyStrip(line);
    if Skipped(t) then []
    else
      match pats.proxyUrl(t)
      case Some(u) => if ValidAddress(u, corrected) then [PortEntry(u, source, category)] else []
      case None =>
        var withPort := PortEntries(pats.loose(t), source, category, corrected);
        if withPort != [] then withPort else BareEntries(pats.pure(t), source, category, corrected)
  }

  /** `parse_simple_line`: the proxy URL, else every valid `ip:port`, else every valid bare ip. */
  method ParseSimpleLine(line: string, source: string, category: string, pats: Patterns, corrected: bool)
    returns (results: seq<IPEntry>)
    ensures results == SimpleLineEntries(line, source, category, pats, corrected)
  {
    results := [];
    var t := PyStrip(line);
    if Skipped(t) {
      return;
    }
    var proxy := pats.proxyUrl(t);
    if proxy.Some? {
      var u := proxy.value;
      if IpAccepted(u.ip, corrected) && IsValidPort(u.port) {
        results := results + [PortEntry(u, source, category)];
      }
      return;
    }
    var loose := pats.loose(t);
    for i := 0 to |loose|
      invariant results == PortEntries(loose[..i], source, category, corrected)
    {
      PortEntriesStep(loose, i, source, category, corrected);
      var m := loose[i];
      if IpAccepted(m.ip, corrected) && IsValidPort(m.port) {
        results := results + [PortEntry(m, source, category)];
      }
    }
    assert loose[..|loose|] == loose;
    if results == [] {
      var pure := pats.pure(t);
      for i := 0 to |pure|
        invariant results == BareEntries(pure[..i], source, category, corrected)
      {
        BareEntriesStep(pure, i, source, category, corrected);
        if IpAccepted(pure[i], corrected) {
          results := results + [BareEntry(pure[i], source, category)];
        }
      }
      assert pure[..|pure|] == pure;
    }
  }

  lemma PortEntriesStep(ms: seq<IpPort>, i: nat, source: string, category: string, corrected: bool)
    requires i < |ms|
    ensures PortEntries(ms[..i + 1], source, category, corrected)
      == PortEntries(ms[..i], source, category, corrected) + if ValidAddress(ms[i], corrected) then [PortEntry(ms[i], source, category)] else []
  {
    assert ms[..i + 1][..i] == ms[..i];
  }

  lemma BareEntriesStep(ips: seq<string>, i: nat, source: string, category: string, corrected: bool)
    requires i < |ips|
    ensures BareEntries(ips[..i + 1], source, category, corrected)
      == BareEntries(ips[..i], source, category, corrected) + if IpAccepted(ips[i], corrected) then [BareEntry(ips[i], source, category)] else []
  {
    assert ips[..i + 1][..i] == ips[..i];
  }

  lemma {:induction false} PortEntriesValid(ms: seq<IpPort>, source: string, category: string, corrected: bool)
    ensures var es := PortEntries(ms, source, category, corrected);
      |es| <= |ms| && forall k :: 0 <= k < |es| ==> ValidEntry(es[k], source, category, corrected) && es[k].port.Some?
  {
    if ms != [] {
      PortEntriesValid(ms[..|ms| - 1], source, category, corrected);
    }
  }

  lemma {:induction false} BareEntriesValid(ips: seq<string>, source: string, category: string, corrected: bool)
    ensures var es := BareEntries(ips, source, category, corrected);
      |es| <= |ips| && forall k :: 0 <= k < |es| ==> ValidEntry(es[k], source, category, corrected) && es[k].port.None?
  {
    if ips != [] {
      BareEntriesValid(ips[..|ips| - 1], source, category, corrected);
    }
  }

  /**
   * The promises of `parse_simple_line`: blank and comment lines give nothing; a proxy-URL match gives at
   * most one entry; bare ips are used only when no `ip:port` entry was found, so the entries either all have
   * a port or all lack one; every entry is valid.
   */
  lemma SimpleLineSpec(line: string, source: string, category: string, pats: Patterns, corrected: bool)
    ensures var t := PyStrip(line);
      var es := SimpleLineEntries(line, source, category, pats, corrected);
      && (Skipped(t) ==> es == [])
      && (pats.proxyUrl(t).Some? ==> |es| <= 1)
      && (forall k :: 0 <= k < |es| ==> ValidEntry(es[k], source, category, corrected))
      && (forall k :: 0 <= k < |es| && es[k].port.None? ==>
            pats.proxyUrl(t).None? && PortEntries(pats.loose(t), source, category, corrected) == [])
      && (forall j, k :: 0 <= j < |es| && 0 <= k < |es| ==> (es[j].port.None? <==> es[k].port.None?))
  {
    var t := PyStrip(line);
    PortEntriesValid(pats.loose(t), source, category, corrected);
    BareEntriesValid(pats.pure(t), source, category, corrected);
  }

  // ---------------------------------------------------------------- whole texts

  /** Every line's entries, concatenated in line order. */
  function TextEntries(lines: seq<string>, source: string, category: string, pats: Patterns, corrected: bool): seq<IPEntry> {
    if lines == [] then []
    else
      TextEntries(lines[..|lines| - 1], source, category, pats, corrected)
      + SimpleLineEntries(lines[|lines| - 1], source, category, pats, corrected)
  }

  /** `parse_text_content`: `parse_simple_line` on every `\n`-separated line. */
  method ParseTextContent(content: string, source: string, category: string, pats: Patterns, corrected: bool)
    returns (entries: seq<IPEntry>)
    ensures entries == TextEntries(Split(content, '\n'), source, category, pats, corrected)
  {
    var lines := Split(content, '\n');
    entries := [];
    for i := 0 to |lines|
      invariant entries == TextEntries(lines[..i], source, category, pats, corrected)
    {
      var found := ParseSimpleLine(lines[i], source, category, pats, corrected);
      TextEntriesStep(lines, i, source, category, pats, corrected);
      entries := entries + found;
    }
    assert lines[..|lines|] == lines;
  }

  lemma TextEntriesStep(lines: seq<string>, i: nat, source: string, category: string, pats: Patterns, corrected: bool)
    requires i < |lines|
    ensures TextEntries(lines[..i + 1], source, category, pats, corrected)
         == TextEntries(lines[..i], source, category, pats, corrected) + SimpleLineEntries(lines[i], source, category, pats, corrected)
  {
    assert lines[..i + 1][..i] == lines[..i];
  }

  /** Every entry is valid for the given source and category. */
  predicate AllValid(es: seq<IPEntry>, source: string, category: string, corrected: bool) {
    forall k :: 0 <= k < |es| ==> ValidEntry(es[k], source, category, corrected)
  }

  lemma AllValidConcat(a: seq<IPEntry>, b: seq<IPEntry>, source: string, category: string, corrected: bool)
    requires AllValid(a, source, category, corrected) && AllValid(b, source, category, corrected)
    ensures AllValid(a + b, source, category, corrected)
  {
    forall k | 0 <= k < |a + b| ensures ValidEntry((a + b)[k], source, category, corrected) {
      if k < |a| {
        assert (a + b)[k] == a[k];
      } else {
        assert (a + b)[k] == b[k - |a|];
      }
    }
  }

  /** Every entry of a text is valid. */
  lemma {:induction false} TextEntriesValid(lines: seq<string>, source: string, category: string, pats: Patterns, corrected: bool)
    ensures AllValid(TextEntries(lines, source, category, pats, corrected), source, category, corrected)
  {
    if lines != [] {
      TextEntriesValid(lines[..|lines| - 1], source, category, pats, corrected);
      SimpleLineSpec(lines[|lines| - 1], source, category, pats, corrected);
      AllValidConcat(TextEntries(lines[..|lines| - 1], source, category, pats, corrected),
        SimpleLineEntries(lines[|lines| - 1], source, category, pats, corrected), source, category, corrected);
    }
  }
}
