/**
 * The IP entry record of the aggregation script and the checks it applies to every address it extracts:
 * the `ip:port` key, the short location text, the English network type, Python's `int()` on a string and
 * the IPv4 / port validators.
 */
module Aggregate {
  import opened Wrappers
  import opened Strings

  /**
   * One extracted address. The validation results (`is_valid`, `latency_ms`, `validation_error`) are set only
   * by the network probes, which are not part of this model.
   */
  datatype IPEntry = IPEntry(
    ip: string,
    port: Option<nat>,
    source: string,
    category: string,
    country: string,
    region: string,
    city: string,
    isp: string,
    netType: string)

  /** The two network types the rich SOCKS5 lists use: data centre and home broadband. */
  const Datacenter: string := "\U{673A}\U{623F}"
  const Residential: string := "\U{5BB6}\U{5BBD}"

  /** Python's `a or b` on strings: `a` unless it is empty. */
  function Or(a: string, b: string): string {
    if a != "" then a else b
  }

  /** `entry.port or 0`: a missing port and port 0 both count as no port. */
  function EffectivePort(e: IPEntry): nat {
    if e.port.Some? then e.port.value else 0
  }

  /** The `address` property: `ip:port` when the entry has a (non-zero) port, the bare ip otherwise. */
  function Address(e: IPEntry): (a: string)
    ensures StartsWith(a, e.ip)
    ensures EffectivePort(e) == 0 <==> a == e.ip
  {
    if EffectivePort(e) != 0 then e.ip + ":" + NatToString(EffectivePort(e)) else e.ip
  }

  /** For ips without a colon the address identifies the ip and the port: it is the deduplication key. */
  lemma AddressInjective(e1: IPEntry, e2: IPEntry)
    requires ':' !in e1.ip && ':' !in e2.ip
    ensures Address(e1) == Address(e2) <==> e1.ip == e2.ip && EffectivePort(e1) == EffectivePort(e2)
  {
    var a1, a2 := Address(e1), Address(e2);
    if a1 == a2 {
      var p1, p2 := EffectivePort(e1), EffectivePort(e2);
      assert p1 != 0 ==> a1[|e1.ip|] == ':';
      assert p2 != 0 ==> a2[|e2.ip|] == ':';
      assert (p1 != 0) == (':' in a1) && (p2 != 0) == (':' in a2);
      if p1 != 0 && p2 != 0 {
        FirstIndexAt(a1, ':', |e1.ip|);
        FirstIndexAt(a2, ':', |e2.ip|);
        assert e1.ip == a1[..|e1.ip|];
        assert NatToString(p1) == a1[|e1.ip| + 1..];
        assert NatToString(p2) == a2[|e2.ip| + 1..];
        NatToStringValue(p1);
        NatToStringValue(p2);
      }
    }
  }

  /** The words the `location` property joins: the country, then the city or, failing that, the region. */
  function LocationParts(e: IPEntry): (parts: seq<string>)
    ensures |parts| <= 2 && forall k :: 0 <= k < |parts| ==> parts[k] != ""
    ensures parts == [] <==> e.country == "" && e.city == "" && e.region == ""
    ensures e.country != "" ==> parts[0] == e.country
    ensures e.city != "" ==> parts[|parts| - 1] == e.city
    ensures e.city == "" && e.region != "" ==> parts[|parts| - 1] == e.region
    ensures e.country == "" ==> |parts| <= 1
  {
    (if e.country != "" then [e.country] else [])
    + (if e.city != "" then [e.city] else if e.region != "" then [e.region] else [])
  }

  /** The `location` property: the parts separated by one space, or `Unknown` when there are none. */
  function Location(e: IPEntry): string {
    var parts := LocationParts(e);
    if parts == [] then "Unknown" else Join(parts, ' ')
  }

  /** When no field holds a space the location text splits back into its parts. */
  lemma LocationRoundTrip(e: IPEntry)
    requires ' ' !in e.country && ' ' !in e.city && ' ' !in e.region
    requires e.country != "" || e.city != "" || e.region != ""
    ensures Split(Location(e), ' ') == LocationParts(e)
  {
    SplitJoin(LocationParts(e), ' ');
  }

  /** The dictionary `net_type_en` looks the network type up in. */
  const NetTypeNames: map<string, string> :=
    map[Datacenter := "datacenter", Residential := "residential", "" := "unknown"]

  /** The `net_type_en` property: the dictionary's name for the type, `unknown` for a type it lacks. */
  function NetTypeEn(netType: string): (r: string)
    ensures r == "datacenter" || r == "residential" || r == "unknown"
    ensures r == "datacenter" <==> netType == Datacenter
    ensures r == "residential" <==> netType == Residential
  {
    if netType in NetTypeNames then NetTypeNames[netType] else "unknown"
  }

  /**
   * Two network types get the same English name exactly when they are equal or neither is one of the two
   * known types: every other text, the empty one included, is `unknown`.
   */
  lemma NetTypeEnClasses(a: string, b: string)
    ensures NetTypeEn(a) == NetTypeEn(b) <==>
      a == b || (a !in {Datacenter, Residential} && b !in {Datacenter, Residential})
  {
  }

  // ---------------------------------------------------------------- Python int()

  /** The digits of a decimal literal, single underscores allowed between digits (`1_000`). */
  predicate IntBody(b: string) {
    |b| >= 1 && IsDigit(b[0]) && IsDigit(b[|b| - 1])
    && (forall i :: 0 <= i < |b| ==> IsDigit(b[i]) || b[i] == '_')
    && (forall i :: 0 <= i < |b| - 1 && b[i] == '_' ==> IsDigit(b[i + 1]))
  }

  function DropUnderscores(b: string): (r: string)
    ensures (forall i :: 0 <= i < |b| ==> IsDigit(b[i]) || b[i] == '_') ==> AllDigits(r)
    ensures AllDigits(b) ==> r == b
  {
    if b == [] then []
    else (if b[0] == '_' then [] else [b[0]]) + DropUnderscores(b[1..])
  }

  /**
   * Python's `int(s)` for a string: surrounding white space, an optional sign, then decimal digits; `None`
   * where Python raises `ValueError`.
   */
  function PyInt(s: string): (r: Option<int>)
    ensures r.Some? ==> PyStrip(s) != ""
  {
    var t := PyStrip(s);
    if t == [] then None
    else
      var body := if t[0] == '-' || t[0] == '+' then t[1..] else t;
      if IntBody(body) then
        var v: int := DigitsValue(DropUnderscores(body));
        Some(if t[0] == '-' then -v else v)
      else None
  }

  lemma PyIntOfDigits(s: string)
    requires s != [] && AllDigits(s)
    ensures PyInt(s) == Some(DigitsValue(s))
  {
    assert IsDigit(s[0]) && IsDigit(s[|s| - 1]);
    assert PyStrip(s) == s;
  }

  /** The `is_valid_ip` check as written: four parts, each an integer from 0 to 255, and two texts refused. */
  predicate IsValidIp(ip: string) {
    var parts := Split(ip, '.');
    |parts| == 4
    && Octet(parts[0]) && Octet(parts[1]) && Octet(parts[2]) && Octet(parts[3])
    && !StartsWith(ip, "0.") && ip != "255.255.255.255"
  }

  predicate Octet(part: string) {
    PyInt(part).Some? && 0 <= PyInt(part).value <= 255
  }

  /**
   * The IPv4 validation as evidently intended: the first octet is not zero and the address is not the broadcast
   * address, judged by the octets' values rather than by the text.
   */
  predicate IsValidIpFixed(ip: string) {
    var parts := Split(ip, '.');
    |parts| == 4
    && Octet(parts[0]) && Octet(parts[1]) && Octet(parts[2]) && Octet(parts[3])
    && PyInt(parts[0]).value != 0
    && !(PyInt(parts[0]).value == 255 && PyInt(parts[1]).value == 255
         && PyInt(parts[2]).value == 255 && PyInt(parts[3]).value == 255)
  }

  /**
   * The IPv4 test the parsers apply: `is_valid_ip` as written, or, with `corrected`, the test as evidently
   * intended.
   */
  predicate IpAccepted(ip: string, corrected: bool) {
    if corrected then IsValidIpFixed(ip) else IsValidIp(ip)
  }

  /** The corrected test only refuses more: every address it accepts, the test as written accepts too. */
  lemma CorrectedRefusesMore(ip: string)
    requires IsValidIpFixed(ip)
    ensures IsValidIp(ip)
  {
    if StartsWith(ip, "0.") {
      ZeroDotFirstPart(ip);
      assert false;
    }
    if ip == "255.255.255.255" {
      BroadcastText();
      BroadcastValues();
      assert false;
    }
  }

  /** A text that starts with `0.` has `0` as its first part, and that part's value is zero. */
  lemma ZeroDotFirstPart(ip: string)
    requires StartsWith(ip, "0.")
    ensures Split(ip, '.')[0] == "0" && PyInt(Split(ip, '.')[0]) == Some(0)
  {
    assert ip[0] == '0' && ip[1] == '.';
    FirstIndexAt(ip, '.', 1);
    assert ip[..1] == "0";
    PyIntOfDigits("0");
  }

  /** Each part of the broadcast text has the value 255. */
  lemma BroadcastValues()
    ensures PyInt("255") == Some(255)
  {
    assert DigitsValue("2") == 2 by { assert "2"[..0] == []; }
    assert DigitsValue("25") == 25 by { assert "25"[..1] == "2"; }
    assert DigitsValue("255") == 255 by { assert "255"[..2] == "25"; }
    PyIntOfDigits("255");
  }

  /** `is_valid_port`: an integer from 1 to 65535. */
  predicate IsValidPort(port: string) {
    PyInt(port).Some? && 1 <= PyInt(port).value <= 65535
  }

  /** The port number `int(port_str)` of a valid port. */
  function PortNumber(port: string): (n: nat)
    requires IsValidPort(port)
    ensures 1 <= n <= 65535
  {
    PyInt(port).value
  }

  /** For a run of digits, as every port pattern captures, validity is the range of its value. */
  lemma PortDigits(port: string)
    requires port != [] && AllDigits(port)
    ensures IsValidPort(port) <==> 1 <= DigitsValue(port) <= 65535
    ensures IsValidPort(port) ==> PortNumber(port) == DigitsValue(port)
  {
    PyIntOfDigits(port);
  }

  /** Four runs of digits joined by dots, the shape every IPv4 pattern match has. */
  predicate DigitParts(parts: seq<string>) {
    |parts| == 4 && forall k :: 0 <= k < 4 ==> parts[k] != [] && AllDigits(parts[k])
  }

  lemma {:induction false} DigitPartsSplit(parts: seq<string>)
    requires DigitParts(parts)
    ensures Split(Join(parts, '.'), '.') == parts
  {
    forall k | 0 <= k < 4 ensures '.' !in parts[k] {
      forall i | 0 <= i < |parts[k]| ensures parts[k][i] != '.' { assert IsDigit(parts[k][i]); }
    }
    SplitJoin(parts, '.');
  }

  /** The text of a dotted quad starts with `0.` exactly when its first part is the single digit `0`. */
  lemma ZeroPrefix(parts: seq<string>)
    requires DigitParts(parts)
    ensures StartsWith(Join(parts, '.'), "0.") <==> parts[0] == "0"
  {
    var ip := Join(parts, '.');
    assert ip == parts[0] + "." + Join(parts[1..], '.');
    assert |parts[0]| > 1 ==> IsDigit(parts[0][1]) && ip[1] == parts[0][1];
    assert |parts[0]| == 1 ==> ip[1] == '.' && parts[0] == ip[..1];
    if parts[0] == "0" { assert ip[..2] == "0."; }
  }

  /** The value of each part of a dotted run of digits. */
  function PartValues(parts: seq<string>): (v: seq<nat>)
    requires DigitParts(parts)
    ensures |v| == 4
  {
    [DigitsValue(parts[0]), DigitsValue(parts[1]), DigitsValue(parts[2]), DigitsValue(parts[3])]
  }

  lemma OctetsOfParts(ip: string, parts: seq<string>)
    requires DigitParts(parts) && Split(ip, '.') == parts
    ensures var v := PartValues(parts);
      && (Octet(parts[0]) && Octet(parts[1]) && Octet(parts[2]) && Octet(parts[3])
          <==> v[0] <= 255 && v[1] <= 255 && v[2] <= 255 && v[3] <= 255)
      && (Octet(parts[0]) ==> PyInt(parts[0]).value == v[0])
      && (Octet(parts[1]) ==> PyInt(parts[1]).value == v[1])
      && (Octet(parts[2]) ==> PyInt(parts[2]).value == v[2])
      && (Octet(parts[3]) ==> PyInt(parts[3]).value == v[3])
  {
    OctetOfDigits(parts[0]);
    OctetOfDigits(parts[1]);
    OctetOfDigits(parts[2]);
    OctetOfDigits(parts[3]);
  }

  lemma OctetOfDigits(part: string)
    requires part != [] && AllDigits(part)
    ensures Octet(part) <==> DigitsValue(part) <= 255
    ensures Octet(part) ==> PyInt(part).value == DigitsValue(part)
  {
    PyIntOfDigits(part);
  }

  lemma JoinFour(a: string, b: string, c: string, d: string, sep: char)
    ensures Join([a, b, c, d], sep) == a + [sep] + b + [sep] + c + [sep] + d
  {
    assert Join([c, d], sep) == c + [sep] + d by { assert [c, d][1..] == [d]; }
    assert Join([b, c, d], sep) == b + [sep] + Join([c, d], sep) by { assert [b, c, d][1..] == [c, d]; }
    assert Join([a, b, c, d], sep) == a + [sep] + Join([b, c, d], sep) by { assert [a, b, c, d][1..] == [b, c, d]; }
  }

  lemma BroadcastText()
    ensures Split("255.255.255.255", '.') == ["255", "255", "255", "255"]
    ensures Join(["255", "255", "255", "255"], '.') == "255.255.255.255"
  {
    JoinFour("255", "255", "255", "255", '.');
    assert "255" + "." + "255" + "." + "255" + "." + "255" == "255.255.255.255";
    DigitPartsSplit(["255", "255", "255", "255"]);
  }

  /**
   * What the IPv4 validation as written accepts among dotted runs of digits: every part at most 255, the first part
   * not the text `0`, and not the text `255.255.255.255`. A first part `00` or `000` is let through.
   */
  lemma AsWrittenValidIff(parts: seq<string>)
    requires DigitParts(parts)
    ensures var v := PartValues(parts);
      IsValidIp(Join(parts, '.')) <==>
      v[0] <= 255 && v[1] <= 255 && v[2] <= 255 && v[3] <= 255
      && parts[0] != "0" && parts != ["255", "255", "255", "255"]
  {
    var ip := Join(parts, '.');
    DigitPartsSplit(parts);
    OctetsOfParts(ip, parts);
    ZeroPrefix(parts);
    BroadcastText();
  }

  /** A first octet written `00` passes the validation as written, although its value is zero. */
  lemma ZeroNetworkAccepted()
    ensures IsValidIp("00.1.2.3")
  {
    var parts := ["00", "1", "2", "3"];
    JoinFour("00", "1", "2", "3", '.');
    assert "00" + "." + "1" + "." + "2" + "." + "3" == "00.1.2.3";
    assert DigitsValue("00") == 0 by { assert "00"[..1] == "0"; }
    assert DigitParts(parts);
    assert PartValues(parts) == [0, 1, 2, 3];
    assert parts[0] != "0" && parts[1] != "255";
    AsWrittenValidIff(parts);
  }

  /** What the corrected check accepts among dotted runs of digits: by value only. */
  lemma FixedValidIff(parts: seq<string>)
    requires DigitParts(parts)
    ensures var v := PartValues(parts);
      IsValidIpFixed(Join(parts, '.')) <==>
      v[0] <= 255 && v[1] <= 255 && v[2] <= 255 && v[3] <= 255
      && v[0] != 0 && !(v[0] == 255 && v[1] == 255 && v[2] == 255 && v[3] == 255)
  {
    var ip := Join(parts, '.');
    DigitPartsSplit(parts);
    OctetsOfParts(ip, parts);
  }
}
