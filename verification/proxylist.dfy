/**
 * The proxy-list handling of the IP-list workers: `parseProxyList` (one `ip#REGION` entry or bare dotted quad
 * per line), the region guess for bare addresses, and the priority-ordered choice of recommended proxies.
 * The current worker (scripts/fallback_proxy.js) and the legacy one (fallback_proxy.js) differ in the bare-line
 * clean-up, the region table and the country groups; both variants are modelled side by side.
 */
module ProxyList {
  import opened Wrappers
  import opened Strings
  import opened Target

  /** A `{ ip, region }` entry. */
  datatype Proxy = Proxy(ip: string, region: string)

  /** `\d` or `.`, the characters of `[\d.]`. */
  predicate DigitOrDot(c: char) {
    IsDigit(c) || c == '.'
  }

  /** A non-empty run of `[\d.]`. */
  predicate DigitsAndDots(s: string) {
    s != [] && forall k :: 0 <= k < |s| ==> DigitOrDot(s[k])
  }

  /** `\w`: ASCII letters, digits and `_`. */
  predicate IsWordChar(c: char) {
    'a' <= c <= 'z' || 'A' <= c <= 'Z' || IsDigit(c) || c == '_'
  }

  /** A proxy as an `ip#REGION` line spells it: a non-empty `[\d.]+` address and a non-empty `\w+` region. */
  predicate TaggedProxy(p: Proxy) {
    && DigitsAndDots(p.ip)
    && p.region != [] && (forall k :: 0 <= k < |p.region| ==> IsWordChar(p.region[k]))
  }

  /** `line.match(/^([\d.]+)#(\w+)$/)`. */
  function MatchTagged(line: string): Option<Proxy> {
    var i := FirstIndex(line, '#');
    if i >= 0 && TaggedProxy(Proxy(line[..i], line[i + 1..])) then Some(Proxy(line[..i], line[i + 1..])) else None
  }

  /** The tagged form is recognised exactly: a line matches iff it is `ip + '#' + region` of a tagged proxy. */
  lemma MatchTaggedIff(line: string, p: Proxy)
    ensures MatchTagged(line) == Some(p) <==> TaggedProxy(p) && line == p.ip + "#" + p.region
  {
    if TaggedProxy(p) && line == p.ip + "#" + p.region {
      forall k | 0 <= k < |p.ip| ensures line[k] != '#' {
        assert line[k] == p.ip[k] && DigitOrDot(p.ip[k]);
      }
      FirstIndexAt(line, '#', |p.ip|);
      assert line[..|p.ip|] == p.ip && line[|p.ip| + 1..] == p.region;
    }
  }

  // ------------------------------------------------------------------ region tables

  /** `map3` of `guessRegion`: three-octet prefixes. */
  const Map3: seq<(string, string)> := [
    ("104.19.32", "CF-US"), ("104.19.33", "CF-US"),
    ("198.41.208", "CF-US"), ("198.41.209", "CF-US"),
    ("198.41.214", "CF-EU"), ("198.41.215", "CF-EU"),
    ("198.41.192", "CF-AS"), ("198.41.193", "CF-AS"),
    ("130.162.61", "JP"), ("130.162.62", "JP")
  ]

  /** The region codes of the two-octet table. */
  const RegionAe: string := "AE"
  const RegionAu: string := "AU"
  const RegionBh: string := "BH"
  const RegionBr: string := "BR"
  const RegionCfAf: string := "CF-AF"
  const RegionCfAs: string := "CF-AS"
  const RegionCfEu: string := "CF-EU"
  const RegionCfSa: string := "CF-SA"
  const RegionCfUs: string := "CF-US"
  const RegionCh: string := "CH"
  const RegionCn: string := "CN"
  const RegionDe: string := "DE"
  const RegionEu: string := "EU"
  const RegionFr: string := "FR"
  const RegionHk: string := "HK"
  const RegionId: string := "ID"
  const RegionIl: string := "IL"
  const RegionIn: string := "IN"
  const RegionJp: string := "JP"
  const RegionKr: string := "KR"
  const RegionMy: string := "MY"
  const RegionNl: string := "NL"
  const RegionSg: string := "SG"
  const RegionTh: string := "TH"
  const RegionTw: string := "TW"
  const RegionUk: string := "UK"
  const RegionUs: string := "US"
  const RegionZa: string := "ZA"

  /**
   * `map2` of `guessRegion`, two-octet prefixes, written as a function of the two octet values. Every key of
   * the table is a pair of canonical decimals (no leading zero), so a string key `a.b` is present exactly
   * when both parts are canonical and this function answers for their values; see `TwoOctetLookup`.
   */
  function Map2Region(a: nat, b: nat): Option<string> {
    if a == 104 then
      if 16 <= b <= 27 then Some(RegionCfUs)
      else None
    else if a == 172 then
      if 64 <= b <= 67 then Some(RegionCfUs)
      else None
    else if a == 162 then
      if b == 14 then Some(RegionUs)
      else if b == 62 then Some(RegionHk)
      else if 158 <= b <= 159 then Some(RegionCfUs)
      else None
    else if a == 198 then
      if b == 41 then Some(RegionCfUs)
      else None
    else if a == 173 then
      if b == 245 then Some(RegionCfUs)
      else None
    else if a == 108 then
      if b == 162 then Some(RegionCfUs)
      else None
    else if a == 141 then
      if b == 101 then Some(RegionCfEu)
      else if 144 <= b <= 145 then Some(RegionNl)
      else if 147 <= b <= 148 then Some(RegionJp)
      else None
    else if a == 188 then
      if b == 114 then Some(RegionCfEu)
      else None
    else if a == 190 then
      if b == 93 then Some(RegionCfSa)
      else None
    else if a == 197 then
      if b == 234 then Some(RegionCfAf)
      else None
    else if a == 103 then
      if 21 <= b <= 22 then Some(RegionCfAs)
      else if b == 31 then Some(RegionCfAs)
      else None
    else if a == 131 then
      if b == 0 then Some(RegionCfEu)
      else None
    else if a == 8 then
      if b == 208 then Some(RegionDe)
      else if b == 209 then Some(RegionSg)
      else if b == 210 then Some(RegionHk)
      else if b == 211 then Some(RegionSg)
      else if b == 212 then Some(RegionHk)
      else if b == 213 then Some(RegionId)
      else if b == 214 then Some(RegionJp)
      else if b == 215 then Some(RegionId)
      else if b == 216 then Some(RegionMy)
      else if 217 <= b <= 218 then Some(RegionHk)
      else if b == 219 then Some(RegionSg)
      else if b == 220 then Some(RegionAe)
      else if b == 221 then Some(RegionJp)
      else if b == 222 then Some(RegionSg)
      else if b == 223 then Some(RegionMy)
      else None
    else if a == 47 then
      if b == 74 then Some(RegionSg)
      else if b == 76 then Some(RegionSg)
      else if 88 <= b <= 89 then Some(RegionUs)
      else if 90 <= b <= 91 then Some(RegionDe)
      else if 242 <= b <= 243 then Some(RegionHk)
      else if b == 245 then Some(RegionMy)
      else if 251 <= b <= 254 then Some(RegionUs)
      else None
    else if a == 129 then
      if b == 150 then Some(RegionUs)
      else if b == 151 then Some(RegionUk)
      else if 152 <= b <= 154 then Some(RegionUs)
      else if b == 204 then Some(RegionCn)
      else if b == 211 then Some(RegionCn)
      else None
    else if a == 130 then
      if b == 61 then Some(RegionDe)
      else if b == 162 then Some(RegionJp)
      else None
    else if a == 132 then
      if b == 145 then Some(RegionUs)
      else if b == 226 then Some(RegionBr)
      else None
    else if a == 138 then
      if b == 2 then Some(RegionJp)
      else if b == 3 then Some(RegionKr)
      else None
    else if a == 140 then
      if b == 238 then Some(RegionJp)
      else None
    else if a == 143 then
      if b == 47 then Some(RegionNl)
      else None
    else if a == 144 then
      if 21 <= b <= 22 then Some(RegionUs)
      else if b == 24 then Some(RegionKr)
      else None
    else if a == 146 then
      if b == 56 then Some(RegionKr)
      else if b == 235 then Some(RegionIn)
      else None
    else if a == 150 then
      if b == 109 then Some(RegionHk)
      else if b == 136 then Some(RegionUs)
      else if b == 138 then Some(RegionCn)
      else if b == 230 then Some(RegionJp)
      else None
    else if a == 152 then
      if b == 67 then Some(RegionKr)
      else if 69 <= b <= 70 then Some(RegionKr)
      else None
    else if a == 155 then
      if b == 248 then Some(RegionAu)
      else None
    else if a == 158 then
      if b == 101 then Some(RegionUs)
      else if b == 178 then Some(RegionAe)
      else if b == 179 then Some(RegionIl)
      else None
    else if a == 168 then
      if b == 138 then Some(RegionSg)
      else None
    else if a == 192 then
      if b == 9 then Some(RegionUs)
      else None
    else if a == 193 then
      if b == 122 then Some(RegionDe)
      else if b == 123 then Some(RegionKr)
      else None
    else if a == 3 then
      if 0 <= b <= 1 then Some(RegionSg)
      else if 6 <= b <= 7 then Some(RegionIn)
      else if 8 <= b <= 9 then Some(RegionUk)
      else if 24 <= b <= 27 then Some(RegionAu)
      else if 34 <= b <= 36 then Some(RegionKr)
      else if b == 37 then Some(RegionEu)
      else if 104 <= b <= 107 then Some(RegionAu)
      else if 112 <= b <= 115 then Some(RegionJp)
      else None
    else if a == 13 then
      if 112 <= b <= 115 then Some(RegionJp)
      else if 124 <= b <= 125 then Some(RegionKr)
      else if b == 208 then Some(RegionJp)
      else if b == 209 then Some(RegionKr)
      else if 210 <= b <= 211 then Some(RegionAu)
      else if 212 <= b <= 215 then Some(RegionSg)
      else if 228 <= b <= 229 then Some(RegionSg)
      else if 230 <= b <= 231 then Some(RegionJp)
      else if 232 <= b <= 235 then Some(RegionIn)
      else if 236 <= b <= 239 then Some(RegionAu)
      else if 244 <= b <= 246 then Some(RegionZa)
      else if 250 <= b <= 251 then Some(RegionSg)
      else None
    else if a == 15 then
      if b == 152 then Some(RegionJp)
      else if 164 <= b <= 165 then Some(RegionKr)
      else if 184 <= b <= 185 then Some(RegionBh)
      else None
    else if a == 16 then
      if 162 <= b <= 163 then Some(RegionHk)
      else None
    else if a == 18 then
      if b == 136 then Some(RegionSg)
      else if 138 <= b <= 141 then Some(RegionSg)
      else if 162 <= b <= 167 then Some(RegionHk)
      else if 176 <= b <= 183 then Some(RegionJp)
      else None
    else if a == 35 then
      if 72 <= b <= 79 then Some(RegionJp)
      else if 185 <= b <= 186 then Some(RegionUs)
      else if b == 187 then Some(RegionTw)
      else if b == 188 then Some(RegionUs)
      else if b == 189 then Some(RegionHk)
      else if b == 194 then Some(RegionTw)
      else if b == 197 then Some(RegionSg)
      else if 198 <= b <= 199 then Some(RegionBr)
      else if b == 200 then Some(RegionIn)
      else if b == 201 then Some(RegionTw)
      else if 202 <= b <= 203 then Some(RegionUs)
      else if b == 206 then Some(RegionUs)
      else if b == 207 then Some(RegionDe)
      else if 208 <= b <= 209 then Some(RegionUs)
      else if b == 213 then Some(RegionJp)
      else if b == 214 then Some(RegionNl)
      else if b == 215 then Some(RegionAu)
      else if b == 216 then Some(RegionKr)
      else if b == 217 then Some(RegionNl)
      else if b == 219 then Some(RegionJp)
      else if 220 <= b <= 221 then Some(RegionHk)
      else if 222 <= b <= 224 then Some(RegionUs)
      else if b == 226 then Some(RegionUs)
      else if b == 229 then Some(RegionTw)
      else if 230 <= b <= 232 then Some(RegionUs)
      else if b == 234 then Some(RegionHk)
      else if b == 235 then Some(RegionUs)
      else if b == 236 then Some(RegionTw)
      else if b == 237 then Some(RegionUs)
      else if b == 240 then Some(RegionSg)
      else if b == 241 then Some(RegionHk)
      else if b == 242 then Some(RegionDe)
      else if b == 243 then Some(RegionUs)
      else if b == 244 then Some(RegionIn)
      else if b == 245 then Some(RegionUs)
      else if b == 246 then Some(RegionUk)
      else if b == 247 then Some(RegionBr)
      else None
    else if a == 52 then
      if 68 <= b <= 69 then Some(RegionJp)
      else if 78 <= b <= 79 then Some(RegionKr)
      else if 196 <= b <= 199 then Some(RegionJp)
      else if 220 <= b <= 221 then Some(RegionSg)
      else None
    else if a == 54 then
      if 64 <= b <= 65 then Some(RegionJp)
      else if b == 66 then Some(RegionAu)
      else if b == 67 then Some(RegionUs)
      else if b == 92 then Some(RegionJp)
      else if b == 95 then Some(RegionJp)
      else if b == 150 then Some(RegionJp)
      else if b == 151 then Some(RegionSg)
      else if b == 168 then Some(RegionJp)
      else if b == 169 then Some(RegionSg)
      else if b == 178 then Some(RegionJp)
      else if b == 179 then Some(RegionSg)
      else if b == 199 then Some(RegionJp)
      else if b == 238 then Some(RegionJp)
      else if 248 <= b <= 250 then Some(RegionJp)
      else if b == 251 then Some(RegionSg)
      else if 252 <= b <= 253 then Some(RegionAu)
      else if 254 <= b <= 255 then Some(RegionSg)
      else None
    else if a == 34 then
      if b == 64 then Some(RegionKr)
      else if b == 65 then Some(RegionCh)
      else if 66 <= b <= 67 then Some(RegionUs)
      else if 80 <= b <= 81 then Some(RegionTw)
      else if 82 <= b <= 83 then Some(RegionUs)
      else if 84 <= b <= 85 then Some(RegionJp)
      else if b == 92 then Some(RegionHk)
      else if b == 93 then Some(RegionIn)
      else if b == 94 then Some(RegionUs)
      else if b == 96 then Some(RegionHk)
      else if b == 97 then Some(RegionJp)
      else if b == 98 then Some(RegionNl)
      else if b == 100 then Some(RegionIn)
      else if b == 124 then Some(RegionSg)
      else if b == 126 then Some(RegionSg)
      else if b == 127 then Some(RegionUs)
      else if b == 142 then Some(RegionUk)
      else if b == 143 then Some(RegionSg)
      else if b == 146 then Some(RegionJp)
      else if b == 150 then Some(RegionUs)
      else None
    else if a == 43 then
      if b == 128 then Some(RegionTh)
      else if b == 129 then Some(RegionHk)
      else if b == 130 then Some(RegionUs)
      else if b == 131 then Some(RegionDe)
      else if b == 132 then Some(RegionSg)
      else if b == 133 then Some(RegionJp)
      else if b == 134 then Some(RegionHk)
      else if b == 135 then Some(RegionDe)
      else if 136 <= b <= 140 then Some(RegionCn)
      else if b == 141 then Some(RegionKr)
      else if 142 <= b <= 143 then Some(RegionCn)
      else if 152 <= b <= 153 then Some(RegionUs)
      else if b == 154 then Some(RegionHk)
      else if b == 155 then Some(RegionKr)
      else if b == 156 then Some(RegionSg)
      else if b == 157 then Some(RegionDe)
      else if b == 158 then Some(RegionJp)
      else if b == 159 then Some(RegionUs)
      else if b == 160 then Some(RegionCn)
      else if b == 163 then Some(RegionIn)
      else None
    else if a == 49 then
      if b == 51 then Some(RegionHk)
      else None
    else if a == 101 then
      if b == 32 then Some(RegionSg)
      else if b == 33 then Some(RegionHk)
      else if 34 <= b <= 35 then Some(RegionCn)
      else None
    else if a == 119 then
      if b == 28 then Some(RegionHk)
      else if b == 29 then Some(RegionCn)
      else None
    else if a == 175 then
      if b == 24 then Some(RegionCn)
      else if b == 27 then Some(RegionCn)
      else None
    else if a == 212 then
      if b == 64 then Some(RegionDe)
      else if b == 129 then Some(RegionFr)
      else None
    else None
  }

  /** A decimal without a leading zero, the form every table key is written in. */
  predicate Canonical(s: string) {
    |s| == 1 || (|s| > 1 && s[0] != '0')
  }

  /** `map2[p0 + '.' + p1]`. */
  function TwoOctetLookup(p0: string, p1: string): Option<string>
    requires AllDigits(p0) && AllDigits(p1)
  {
    if Canonical(p0) && Canonical(p1) then Map2Region(DigitsValue(p0), DigitsValue(p1)) else None
  }

  /** `regionMap` of the legacy `guessRegionByIP`. */
  const LegacyMap: seq<(string, string)> := [
    ("8.212", "HK"), ("8.219", "SG"), ("47.74", "SG"), ("47.242", "HK"), ("47.254", "US"),
    ("144.24", "KR"), ("152.67", "KR"), ("152.70", "KR"), ("150.230", "JP"),
    ("141.144", "NL"), ("141.147", "JP"), ("143.47", "NL"), ("168.138", "SG"),
    ("129.154", "KR"), ("132.226", "BR"), ("158.180", "KR"), ("146.56", "KR"),
    ("104.16", "CF"), ("104.17", "CF"), ("104.19", "CF")
  ]

  /**
   * `table[key]` of a JavaScript object literal written as its entries in order: a later entry with the same
   * key replaces an earlier one, so the value is that of the last entry with the key.
   */
  function Lookup(table: seq<(string, string)>, key: string): Option<string> {
    if table == [] then None
    else if table[|table| - 1].0 == key then Some(table[|table| - 1].1)
    else Lookup(table[..|table| - 1], key)
  }

  /** A lookup finds a value exactly when some entry has the key, and then it is the value of the last such entry. */
  lemma {:induction false} LookupFinds(table: seq<(string, string)>, key: string)
    ensures Lookup(table, key).Some? <==> exists i | 0 <= i < |table| :: table[i].0 == key
    ensures Lookup(table, key).Some? ==> exists i | 0 <= i < |table| ::
      table[i] == (key, Lookup(table, key).value) && forall j | i < j < |table| :: table[j].0 != key
  {
    if table != [] && table[|table| - 1].0 != key {
      var init := table[..|table| - 1];
      LookupFinds(init, key);
      if Lookup(table, key).Some? {
        var i :| 0 <= i < |init| && init[i] == (key, Lookup(table, key).value) && forall j | i < j < |init| :: init[j].0 != key;
        assert table[i] == (key, Lookup(table, key).value);
        forall j | i < j < |table| ensures table[j].0 != key {
          if j < |init| { assert table[j] == init[j]; }
        }
      } else {
        forall i | 0 <= i < |table| ensures table[i].0 != key {
          if i < |init| { assert table[i] == init[i]; }
        }
      }
    }
  }

  /** The entry at `i` answers a lookup of its key when no later entry has that key. */
  lemma {:induction false} LookupAt(table: seq<(string, string)>, key: string, i: nat)
    requires i < |table| && table[i].0 == key && forall j | i < j < |table| :: table[j].0 != key
    ensures Lookup(table, key) == Some(table[i].1)
  {
    if i < |table| - 1 {
      var init := table[..|table| - 1];
      assert init[i] == table[i];
      LookupAt(init, key, i);
    }
  }

  /** The first two / three octets of a dotted quad, joined by dots. */
  function Prefix2(ip: string): string
    requires IsDottedQuadShape(ip)
  {
    var parts := Split(ip, '.');
    parts[0] + "." + parts[1]
  }

  function Prefix3(ip: string): string
    requires IsDottedQuadShape(ip)
  {
    var parts := Split(ip, '.');
    parts[0] + "." + parts[1] + "." + parts[2]
  }

  /** `guessRegion(ip)`: the three-octet table, then the two-octet table, else `XX`. */
  function GuessRegion(ip: string): string
    requires IsDottedQuadShape(ip)
  {
    var parts := Split(ip, '.');
    match Lookup(Map3, Prefix3(ip))
    case Some(r) => r
    case None => TwoOctetLookup(parts[0], parts[1]).GetOr("XX")
  }

  /** No region code of the two-octet table is `XX`. */
  lemma Map2NeverUnknown(a: nat, b: nat)
    ensures Map2Region(a, b) != Some("XX")
  {
    var r := Map2Region(a, b);
    assert r.Some? ==> r.value in {RegionAe, RegionAu, RegionBh, RegionBr, RegionCfAf, RegionCfAs, RegionCfEu, RegionCfSa, RegionCfUs, RegionCh, RegionCn, RegionDe, RegionEu, RegionFr, RegionHk, RegionId, RegionIl, RegionIn, RegionJp, RegionKr, RegionMy, RegionNl, RegionSg, RegionTh, RegionTw, RegionUk, RegionUs, RegionZa};
  }

  /**
   * `guessRegion` for every dotted quad: the three-octet table's region when it has the prefix, otherwise
   * the two-octet table's; `XX` exactly when neither table has the address's prefix, since no table holds
   * `XX` as a region.
   */
  lemma GuessRegionPrecedence(ip: string)
    requires IsDottedQuadShape(ip)
    ensures var parts := Split(ip, '.');
      var m3 := Lookup(Map3, Prefix3(ip));
      var m2 := TwoOctetLookup(parts[0], parts[1]);
      && (m3.Some? ==> GuessRegion(ip) == m3.value)
      && (m3.None? && m2.Some? ==> GuessRegion(ip) == m2.value)
      && (GuessRegion(ip) == "XX" <==> m3.None? && m2.None?)
  {
    var parts := Split(ip, '.');
    var m3 := Lookup(Map3, Prefix3(ip));
    if m3.Some? {
      LookupFinds(Map3, Prefix3(ip));
      var i :| 0 <= i < |Map3| && Map3[i] == (Prefix3(ip), m3.value) && forall j | i < j < |Map3| :: Map3[j].0 != Prefix3(ip);
      assert Map3[i].1 != "XX";
    }
    if Canonical(parts[0]) && Canonical(parts[1]) {
      Map2NeverUnknown(DigitsValue(parts[0]), DigitsValue(parts[1]));
    }
  }

  /** The three-octet table is consulted first: `198.41.214.x` is `CF-EU` … */
  lemma ThreeOctetTableWins(ip: string)
    requires IsDottedQuadShape(ip) && Prefix3(ip) == "198.41.214"
    ensures GuessRegion(ip) == "CF-EU"
  {
    LookupAt(Map3, "198.41.214", 4);
  }

  /** … although `198.41` is `CF-US` in the two-octet table. */
  lemma TwoOctetEntry(p0: string, p1: string)
    requires p0 == "198" && p1 == "41"
    ensures TwoOctetLookup(p0, p1) == Some("CF-US")
  {
    assert DigitsValue("1") == 1 by { assert "1"[..0] == []; }
    assert DigitsValue("19") == 19 by { assert "19"[..1] == "1"; }
    assert DigitsValue("198") == 198 by { assert "198"[..2] == "19"; }
    assert DigitsValue("4") == 4 by { assert "4"[..0] == []; }
    assert DigitsValue("41") == 41 by { assert "41"[..1] == "4"; }
  }

  /** `guessRegionByIP(ip)`: the two-octet table, else `CF` when the first octet is 104, else `XX`. */
  function GuessRegionByIp(ip: string): string
    requires IsDottedQuadShape(ip)
  {
    match Lookup(LegacyMap, Prefix2(ip))
    case Some(r) => r
    case None => if DigitsValue(Split(ip, '.')[0]) == 104 then "CF" else "XX"
  }

  /** The legacy table's `104.*` entries agree with the fallback: every address whose first octet is 104 is `CF`. */
  lemma LegacyCloudflareRange(ip: string)
    requires IsDottedQuadShape(ip) && DigitsValue(Split(ip, '.')[0]) == 104
    ensures GuessRegionByIp(ip) == "CF"
  {
    var parts := Split(ip, '.');
    var first := parts[0];
    assert AllDigits(first) && 1 <= |first| <= 3;
    assert first == "104" by { DigitsOf104(first); }
    match Lookup(LegacyMap, Prefix2(ip))
    case None =>
    case Some(r) =>
      LookupFinds(LegacyMap, Prefix2(ip));
      var i :| 0 <= i < |LegacyMap| && LegacyMap[i] == (Prefix2(ip), r) && forall j | i < j < |LegacyMap| :: LegacyMap[j].0 != Prefix2(ip);
      var key := Prefix2(ip);
      assert key == first + "." + parts[1];
      assert key[0] == '1' && key[1] == '0';
      LegacyKeysBy104(i);
  }

  /** Two digits or fewer are worth less than 100. */
  lemma {:induction false} ShortDigitsValue(s: string)
    requires AllDigits(s) && |s| <= 2
    ensures DigitsValue(s) < (if |s| == 0 then 1 else if |s| == 1 then 10 else 100)
  {
    if s != [] {
      assert AllDigits(s[..|s| - 1]);
      ShortDigitsValue(s[..|s| - 1]);
    }
  }

  /** Three digits or fewer with value 104 spell `104`. */
  lemma DigitsOf104(s: string)
    requires AllDigits(s) && 1 <= |s| <= 3 && DigitsValue(s) == 104
    ensures s == "104"
  {
    if |s| <= 2 {
      ShortDigitsValue(s);
    } else {
      var t := s[..2];
      assert AllDigits(t);
      ShortDigitsValue(t);
      assert s[..|s| - 1] == t;
      assert DigitsValue(t) == 10;
      var u := t[..1];
      assert AllDigits(u);
      assert t[..|t| - 1] == u;
      assert u[..0] == [];
      assert DigitsValue(u) == (u[0] - '0') as nat;
      assert s[0] == '1' && s[1] == '0' && s[2] == '4';
      assert s == [s[0], s[1], s[2]];
    }
  }

  /** The entries whose key starts with `10` (that is, `104.`) map to `CF`. */
  lemma LegacyKeysBy104(i: nat)
    requires i < |LegacyMap| && |LegacyMap[i].0| >= 2 && LegacyMap[i].0[0] == '1' && LegacyMap[i].0[1] == '0'
    ensures LegacyMap[i].1 == "CF"
  {
    assert i == 0 || i == 1 || i == 2 || i == 3 || i == 4 || i == 5 || i == 6 || i == 7 || i == 8 || i == 9
        || i == 10 || i == 11 || i == 12 || i == 13 || i == 14 || i == 15 || i == 16 || i == 17 || i == 18 || i == 19;
  }

  // ------------------------------------------------------------------ parseProxyList

  /**
   * The region guess a parser applies to a bare address: `guessRegion` in the current worker, `guessRegionByIP`
   * in the legacy one. Both are only ever applied to dotted quads; elsewhere the value is irrelevant.
   */
  function Guesser(legacy: bool): string -> string {
    if legacy then ip => if IsDottedQuadShape(ip) then GuessRegionByIp(ip) else "XX"
    else ip => if IsDottedQuadShape(ip) then GuessRegion(ip) else "XX"
  }

  /**
   * One trimmed line of `parseProxyList`: a tagged entry, a bare dotted quad with its guessed region, or nothing.
   * The legacy parser removes all white space from the line before the dotted-quad test.
   */
  function ParseLine(line: string, legacy: bool, guess: string -> string): Option<Proxy> {
    if line == [] then None
    else match MatchTagged(line)
      case Some(p) => Some(p)
      case None =>
        var candidate := if legacy then RemoveJsSpace(line) else line;
        if IsDottedQuadShape(candidate) then Some(Proxy(candidate, guess(candidate))) else None
  }

  function Emit(o: Option<Proxy>): seq<Proxy> {
    match o
    case None => []
    case Some(p) => [p]
  }

  /** The values of the present results, in order. */
  function Somes(os: seq<Option<Proxy>>): seq<Proxy> {
    if os == [] then [] else Somes(os[..|os| - 1]) + Emit(os[|os| - 1])
  }

  /** What each line yields: the line trimmed, then parsed. */
  function LineResults(lines: seq<string>, legacy: bool, guess: string -> string): (rs: seq<Option<Proxy>>)
    ensures |rs| == |lines|
    ensures forall i :: 0 <= i < |lines| ==> rs[i] == ParseLine(JsTrim(lines[i]), legacy, guess)
  {
    seq(|lines|, i requires 0 <= i < |lines| => ParseLine(JsTrim(lines[i]), legacy, guess))
  }

  /** The entries of `lines`, in order: each line trimmed and parsed, unparseable lines dropped. */
  function ParsedLines(lines: seq<string>, legacy: bool, guess: string -> string): seq<Proxy> {
    Somes(LineResults(lines, legacy, guess))
  }

  /** The loop body of `parseProxyList`: the entry one line contributes, if any. */
  method ParseOne(raw: string, legacy: bool, guess: string -> string) returns (entry: Option<Proxy>)
    ensures entry == ParseLine(JsTrim(raw), legacy, guess)
  {
    var line := JsTrim(raw);
    if line == [] {
      return None;
    }
    var m := MatchTagged(line);
    if m.Some? {
      return m;
    }
    var candidate := if legacy then RemoveJsSpace(line) else line;
    if IsDottedQuadShape(candidate) {
      entry := Some(Proxy(candidate, guess(candidate)));
    } else {
      entry := None;
    }
  }

  /** The loop of `parseProxyList` over the lines, with the region guess of the variant. */
  method ParseLines(lines: seq<string>, legacy: bool, guess: string -> string) returns (proxies: seq<Proxy>)
    ensures proxies == ParsedLines(lines, legacy, guess)
  {
    ghost var results := LineResults(lines, legacy, guess);
    proxies := [];
    var i := 0;
    while i < |lines|
      invariant 0 <= i <= |lines|
      invariant proxies == Somes(results[..i])
    {
      var entry := ParseOne(lines[i], legacy, guess);
      assert results[..i + 1][..i] == results[..i];
      proxies := proxies + Emit(entry);
      i := i + 1;
    }
    assert results[..i] == results;
  }

  /** `parseProxyList(text)` of the current worker (`legacy` false) or of the legacy one (`legacy` true). */
  method ParseProxyList(text: string, legacy: bool) returns (proxies: seq<Proxy>)
    ensures proxies == ParsedLines(Split(text, '\n'), legacy, Guesser(legacy))
  {
    proxies := ParseLines(Split(text, '\n'), legacy, Guesser(legacy));
  }

  /** At most one entry per result, and each entry is the value of one of the results. */
  lemma {:induction false} SomesBounds(os: seq<Option<Proxy>>)
    ensures |Somes(os)| <= |os|
    ensures forall j :: 0 <= j < |Somes(os)| ==> exists i :: 0 <= i < |os| && os[i] == Some(Somes(os)[j])
  {
    if os != [] {
      var init := os[..|os| - 1];
      SomesBounds(init);
      var out := Somes(os);
      forall j | 0 <= j < |out| ensures exists i :: 0 <= i < |os| && os[i] == Some(out[j]) {
        if j < |Somes(init)| {
          var i :| 0 <= i < |init| && init[i] == Some(Somes(init)[j]);
          assert os[i] == Some(out[j]);
        } else {
          assert os[|os| - 1] == Some(out[j]);
        }
      }
    }
  }

  /** When every result is present, the values are all kept, in order. */
  lemma {:induction false} SomesAll(os: seq<Option<Proxy>>, ps: seq<Proxy>)
    requires |os| == |ps| && forall i :: 0 <= i < |os| ==> os[i] == Some(ps[i])
    ensures Somes(os) == ps
  {
    if os != [] {
      SomesAll(os[..|os| - 1], ps[..|ps| - 1]);
      assert ps == ps[..|ps| - 1] + [ps[|ps| - 1]];
    }
  }

  /** Every entry a line yields has a non-empty `[\d.]+` address. */
  lemma ParseLineIp(line: string, legacy: bool, guess: string -> string)
    requires ParseLine(line, legacy, guess).Some?
    ensures var ip := ParseLine(line, legacy, guess).value.ip;
      DigitsAndDots(ip)
  {
    if MatchTagged(line).None? {
      QuadChars(if legacy then RemoveJsSpace(line) else line);
    }
  }

  /** At most one entry per line, and every entry has a `[\d.]+` address. */
  lemma ParsedLinesBounds(lines: seq<string>, legacy: bool, guess: string -> string)
    ensures |ParsedLines(lines, legacy, guess)| <= |lines|
    ensures forall j :: 0 <= j < |ParsedLines(lines, legacy, guess)| ==>
      DigitsAndDots(ParsedLines(lines, legacy, guess)[j].ip)
  {
    var rs := LineResults(lines, legacy, guess);
    SomesBounds(rs);
    forall j | 0 <= j < |Somes(rs)| ensures DigitsAndDots(Somes(rs)[j].ip) {
      var i :| 0 <= i < |rs| && rs[i] == Some(Somes(rs)[j]);
      ParseLineIp(JsTrim(lines[i]), legacy, guess);
    }
  }

  /** The characters of a dotted quad are digits and dots, and there is at least one. */
  lemma QuadChars(ip: string)
    requires IsDottedQuadShape(ip)
    ensures DigitsAndDots(ip)
  {
    var parts := Split(ip, '.');
    JoinSplit(ip, '.');
    assert forall k :: 0 <= k < |parts| ==> parts[k] != [] && AllDigits(parts[k]);
    JoinedDigits(parts);
  }

  /** Digit runs joined by dots consist of digits and dots. */
  lemma {:induction false} JoinedDigits(parts: seq<string>)
    requires |parts| >= 1
    requires forall k :: 0 <= k < |parts| ==> parts[k] != [] && AllDigits(parts[k])
    ensures DigitsAndDots(Join(parts, '.'))
  {
    var s := Join(parts, '.');
    if |parts| == 1 {
      forall k | 0 <= k < |s| ensures DigitOrDot(s[k]) {
        assert IsDigit(parts[0][k]);
      }
    } else {
      var rest := Join(parts[1..], '.');
      assert s == parts[0] + ['.'] + rest;
      JoinedDigits(parts[1..]);
      assert AllDigits(parts[0]);
      forall k | 0 <= k < |s| ensures DigitOrDot(s[k]) {
        if k < |parts[0]| {
          assert s[k] == parts[0][k] && IsDigit(parts[0][k]);
        } else if k > |parts[0]| {
          assert s[k] == rest[k - |parts[0]| - 1] && DigitOrDot(rest[k - |parts[0]| - 1]);
        } else {
          assert s[k] == '.';
        }
      }
    }
  }

  // ------------------------------------------------------------------ round trip with the upload format

  /** The `ip#REGION` line of an entry. */
  function FormatLine(p: Proxy): string {
    p.ip + "#" + p.region
  }

  function FormatLines(ps: seq<Proxy>): (lines: seq<string>)
    ensures |lines| == |ps| && forall i :: 0 <= i < |ps| ==> lines[i] == FormatLine(ps[i])
  {
    if ps == [] then [] else FormatLines(ps[..|ps| - 1]) + [FormatLine(ps[|ps| - 1])]
  }

  /** A formatted line is already trimmed and parses back to its entry, in both variants. */
  lemma ParseFormattedLine(p: Proxy, legacy: bool, guess: string -> string)
    requires TaggedProxy(p)
    ensures JsTrim(FormatLine(p)) == FormatLine(p)
    ensures ParseLine(FormatLine(p), legacy, guess) == Some(p)
    ensures '\n' !in FormatLine(p)
  {
    var s := FormatLine(p);
    assert !JsSpace(s[0]) by { assert s[0] == p.ip[0] && DigitOrDot(p.ip[0]); }
    assert !JsSpace(s[|s| - 1]) by { assert s[|s| - 1] == p.region[|p.region| - 1] && IsWordChar(p.region[|p.region| - 1]); }
    MatchTaggedIff(s, p);
    forall k | 0 <= k < |s| ensures s[k] != '\n' {
      if k < |p.ip| { assert DigitOrDot(p.ip[k]); }
      else if k > |p.ip| { assert s[k] == p.region[k - |p.ip| - 1] && IsWordChar(p.region[k - |p.ip| - 1]); }
    }
  }

  /** A list of tagged entries survives being written one per line and parsed back. */
  lemma ParseFormattedLines(ps: seq<Proxy>, legacy: bool, guess: string -> string)
    requires forall p :: p in ps ==> TaggedProxy(p)
    ensures ParsedLines(FormatLines(ps), legacy, guess) == ps
  {
    var rs := LineResults(FormatLines(ps), legacy, guess);
    forall i | 0 <= i < |rs| ensures rs[i] == Some(ps[i]) {
      ParseFormattedLine(ps[i], legacy, guess);
    }
    SomesAll(rs, ps);
  }

  /** The upload format round trip: the entries written as `ip#REGION` lines joined by newlines parse back unchanged. */
  lemma UploadRoundTrip(ps: seq<Proxy>, legacy: bool, guess: string -> string)
    requires |ps| >= 1 && forall p :: p in ps ==> TaggedProxy(p)
    ensures ParsedLines(Split(Join(FormatLines(ps), '\n'), '\n'), legacy, guess) == ps
  {
    var lines := FormatLines(ps);
    forall k | 0 <= k < |lines| ensures '\n' !in lines[k] {
      ParseFormattedLine(ps[k], legacy, guess);
    }
    SplitJoin(lines, '\n');
    ParseFormattedLines(ps, legacy, guess);
  }

  /** Every line the current parser accepts, the legacy parser accepts with the same address. */
  lemma LegacyAcceptsMore(line: string, guess: string -> string, legacyGuess: string -> string)
    requires ParseLine(line, false, guess).Some?
    ensures ParseLine(line, true, legacyGuess).Some?
    ensures ParseLine(line, true, legacyGuess).value.ip == ParseLine(line, false, guess).value.ip
  {
    if MatchTagged(line).None? {
      QuadChars(line);
      NoSpaceUnchanged(line);
    }
  }

  lemma {:induction false} NoSpaceUnchanged(s: string)
    requires DigitsAndDots(s) || s == []
    ensures RemoveJsSpace(s) == s
  {
    if s != [] {
      assert DigitOrDot(s[0]);
      NoSpaceUnchanged(s[1..]);
      assert s == [s[0]] + s[1..];
    }
  }

  // ------------------------------------------------------------------ selectProxies / selectProxiesByRegion

  const PriorityCn: seq<string> := ["HK", "SG", "JP", "KR", "TW"]
  const PriorityUs: seq<string> := ["US", "BR", "NL", "DE", "GB"]
  const PriorityEu: seq<string> := ["NL", "DE", "GB", "FR", "IT", "SE"]
  const PriorityAsia: seq<string> := ["SG", "HK", "JP", "KR", "IN", "AU"]
  const PriorityDefault: seq<string> := ["SG", "HK", "JP", "US", "NL"]

  /** The country groups of `selectProxies`. */
  function Priorities(country: string): seq<string> {
    if country in ["CN", "HK", "TW", "MO"] then PriorityCn
    else if country in ["US", "CA", "MX", "BR"] then PriorityUs
    else if country in ["GB", "DE", "FR", "IT", "NL"] then PriorityEu
    else if country in ["JP", "KR", "SG", "IN", "AU"] then PriorityAsia
    else PriorityDefault
  }

  /** The country groups of the legacy `selectProxiesByRegion`: the same, plus AR, ES, SE, TH and VN. */
  function PrioritiesLegacy(country: string): seq<string> {
    if country in ["CN", "HK", "TW", "MO"] then PriorityCn
    else if country in ["US", "CA", "MX", "BR", "AR"] then PriorityUs
    else if country in ["GB", "DE", "FR", "IT", "ES", "NL", "SE"] then PriorityEu
    else if country in ["JP", "KR", "SG", "IN", "AU", "TH", "VN"] then PriorityAsia
    else PriorityDefault
  }

  /** The two variants choose the same list for every country except the five the legacy groups add. */
  lemma PrioritiesAgree(country: string)
    ensures country !in ["AR", "ES", "SE", "TH", "VN"] ==> Priorities(country) == PrioritiesLegacy(country)
    ensures country in ["AR", "ES", "SE", "TH", "VN"] ==> Priorities(country) == PriorityDefault != PrioritiesLegacy(country)
  {
    assert PriorityDefault[0] == "SG" && PriorityUs[0] == "US" && PriorityEu[0] == "NL";
    assert |PriorityDefault| == 5 && |PriorityAsia| == 6;
  }

  /** `priorities.indexOf(x)`. */
  function IndexOf(s: seq<string>, x: string): (r: int)
    ensures -1 <= r < |s|
  {
    if s == [] then -1
    else if s[0] == x then 0
    else
      var k := IndexOf(s[1..], x);
      if k == -1 then -1 else k + 1
  }

  /** The sort key of the comparator: the index in the list, or 999 when the region is not listed. */
  function Rank(priorities: seq<string>, region: string): nat {
    var i := IndexOf(priorities, region);
    if i == -1 then 999 else i
  }

  /** The entries of rank `r`, in input order. */
  function WithRank(ps: seq<Proxy>, priorities: seq<string>, r: nat): (out: seq<Proxy>)
    ensures |out| <= |ps|
  {
    if ps == [] then []
    else WithRank(ps[..|ps| - 1], priorities, r) + if Rank(priorities, ps[|ps| - 1].region) == r then [ps[|ps| - 1]] else []
  }

  /** Every entry `WithRank` keeps has rank `r`. */
  lemma {:induction false} WithRankRanks(ps: seq<Proxy>, priorities: seq<string>, r: nat)
    ensures forall i :: 0 <= i < |WithRank(ps, priorities, r)| ==> Rank(priorities, WithRank(ps, priorities, r)[i].region) == r
  {
    if ps != [] {
      WithRankRanks(ps[..|ps| - 1], priorities, r);
    }
  }

  /** The entries of rank at least `r`, in input order. */
  function RankAtLeast(ps: seq<Proxy>, priorities: seq<string>, r: nat): seq<Proxy> {
    if ps == [] then []
    else RankAtLeast(ps[..|ps| - 1], priorities, r) + if Rank(priorities, ps[|ps| - 1].region) >= r then [ps[|ps| - 1]] else []
  }

  /** Ranks `r`, `r + 1`, …, `|priorities| - 1` and then 999, each block in input order. */
  function Blocks(ps: seq<Proxy>, priorities: seq<string>, r: nat): seq<Proxy>
    decreases |priorities| - r
  {
    if r >= |priorities| then WithRank(ps, priorities, 999)
    else WithRank(ps, priorities, r) + Blocks(ps, priorities, r + 1)
  }

  /** `proxies.slice().sort(byRank)`: the stable sort of a copy by rank. */
  function SortByRank(ps: seq<Proxy>, priorities: seq<string>): seq<Proxy> {
    Blocks(ps, priorities, 0)
  }

  /** `.slice(0, n)`. */
  function Take(s: seq<Proxy>, n: nat): (r: seq<Proxy>)
    ensures |r| == if n < |s| then n else |s|
  {
    if n < |s| then s[..n] else s
  }

  /** `limit || 5`. */
  function Limit(limit: nat): nat {
    if limit == 0 then 5 else limit
  }

  /** `selectProxies(proxies, country, limit)`. */
  function SelectProxies(ps: seq<Proxy>, country: string, limit: nat): seq<Proxy> {
    Take(SortByRank(ps, Priorities(country)), Limit(limit))
  }

  /** `selectProxiesByRegion(proxies, clientCountry, limit)`. */
  function SelectProxiesByRegion(ps: seq<Proxy>, country: string, limit: nat): seq<Proxy> {
    Take(SortByRank(ps, PrioritiesLegacy(country)), Limit(limit))
  }

  predicate RankSorted(s: seq<Proxy>, priorities: seq<string>) {
    forall i, j :: 0 <= i < j < |s| ==> Rank(priorities, s[i].region) <= Rank(priorities, s[j].region)
  }

  lemma {:induction false} WithRankSplit(ps: seq<Proxy>, priorities: seq<string>, r: nat)
    ensures multiset(RankAtLeast(ps, priorities, r)) == multiset(WithRank(ps, priorities, r)) + multiset(RankAtLeast(ps, priorities, r + 1))
  {
    if ps != [] {
      WithRankSplit(ps[..|ps| - 1], priorities, r);
    }
  }

  lemma {:induction false} RankAtLeastAll(ps: seq<Proxy>, priorities: seq<string>)
    ensures RankAtLeast(ps, priorities, 0) == ps
  {
    if ps != [] {
      RankAtLeastAll(ps[..|ps| - 1], priorities);
      assert ps == ps[..|ps| - 1] + [ps[|ps| - 1]];
    }
  }

  /** Above the list's length only the unlisted rank 999 is left. */
  lemma {:induction false} RankAtLeastTail(ps: seq<Proxy>, priorities: seq<string>)
    requires |priorities| <= 999
    ensures RankAtLeast(ps, priorities, |priorities|) == WithRank(ps, priorities, 999)
  {
    if ps != [] {
      RankAtLeastTail(ps[..|ps| - 1], priorities);
    }
  }

  lemma {:induction false} BlocksPermutation(ps: seq<Proxy>, priorities: seq<string>, r: nat)
    requires |priorities| <= 999 && r <= |priorities|
    ensures multiset(Blocks(ps, priorities, r)) == multiset(RankAtLeast(ps, priorities, r))
    decreases |priorities| - r
  {
    if r >= |priorities| {
      assert Blocks(ps, priorities, r) == WithRank(ps, priorities, 999);
      RankAtLeastTail(ps, priorities);
    } else {
      BlocksPermutation(ps, priorities, r + 1);
      WithRankSplit(ps, priorities, r);
      PermutationConcat(Blocks(ps, priorities, r), WithRank(ps, priorities, r), Blocks(ps, priorities, r + 1),
                        RankAtLeast(ps, priorities, r), RankAtLeast(ps, priorities, r + 1));
    }
  }

  lemma PermutationConcat(x: seq<Proxy>, a: seq<Proxy>, b: seq<Proxy>, y: seq<Proxy>, z: seq<Proxy>)
    requires x == a + b && multiset(b) == multiset(z) && multiset(y) == multiset(a) + multiset(z)
    ensures multiset(x) == multiset(y)
  {
  }

  lemma {:induction false} BlocksRanks(ps: seq<Proxy>, priorities: seq<string>, r: nat)
    requires |priorities| <= 999 && r <= |priorities|
    ensures forall p :: p in Blocks(ps, priorities, r) ==> Rank(priorities, p.region) >= r
    ensures RankSorted(Blocks(ps, priorities, r), priorities)
    decreases |priorities| - r
  {
    if r >= |priorities| {
      WithRankRanks(ps, priorities, 999);
    } else {
      BlocksRanks(ps, priorities, r + 1);
      WithRankRanks(ps, priorities, r);
      var a, b := WithRank(ps, priorities, r), Blocks(ps, priorities, r + 1);
      var s := a + b;
      forall i, j | 0 <= i < j < |s| ensures Rank(priorities, s[i].region) <= Rank(priorities, s[j].region) {
        if j < |a| {
          assert s[i] == a[i] && s[j] == a[j];
        } else if i < |a| {
          assert s[i] == a[i] && s[j] == b[j - |a|] && s[j] in b;
        } else {
          assert s[i] == b[i - |a|] && s[j] == b[j - |a|];
        }
      }
    }
  }

  /** Filtering entries that all have rank `q` keeps all of them or none. */
  lemma {:induction false} WithRankUniform(s: seq<Proxy>, priorities: seq<string>, q: nat, r: nat)
    requires forall i :: 0 <= i < |s| ==> Rank(priorities, s[i].region) == q
    ensures WithRank(s, priorities, r) == if r == q then s else []
  {
    if s != [] {
      var init, last := s[..|s| - 1], s[|s| - 1];
      forall i | 0 <= i < |init| ensures Rank(priorities, init[i].region) == q {
        assert init[i] == s[i];
      }
      WithRankUniform(init, priorities, q, r);
      assert Rank(priorities, last.region) == q;
      assert WithRank(s, priorities, r) == WithRank(init, priorities, r) + if q == r then [last] else [];
      if q == r {
        assert s == init + [last];
      }
    }
  }

  lemma {:induction false} WithRankConcat(a: seq<Proxy>, b: seq<Proxy>, priorities: seq<string>, r: nat)
    ensures WithRank(a + b, priorities, r) == WithRank(a, priorities, r) + WithRank(b, priorities, r)
  {
    if b != [] {
      WithRankConcat(a, b[..|b| - 1], priorities, r);
      assert (a + b)[..|a + b| - 1] == a + b[..|b| - 1];
    } else {
      assert a + b == a;
    }
  }

  /** Filtering a block of rank `r` followed by more entries. */
  lemma BlockStep(a: seq<Proxy>, b: seq<Proxy>, priorities: seq<string>, r: nat, q: nat)
    requires forall i :: 0 <= i < |a| ==> Rank(priorities, a[i].region) == r
    ensures WithRank(a + b, priorities, q) == if q == r then a + WithRank(b, priorities, q) else WithRank(b, priorities, q)
  {
    WithRankConcat(a, b, priorities, q);
    WithRankUniform(a, priorities, r, q);
    if q != r {
      assert [] + WithRank(b, priorities, q) == WithRank(b, priorities, q);
    }
  }

  lemma BlocksStableTail(ps: seq<Proxy>, priorities: seq<string>, r: nat, q: nat)
    requires r >= |priorities|
    ensures WithRank(Blocks(ps, priorities, r), priorities, q) == if q == 999 then WithRank(ps, priorities, q) else []
  {
    assert Blocks(ps, priorities, r) == WithRank(ps, priorities, 999);
    WithRankRanks(ps, priorities, 999);
    WithRankUniform(WithRank(ps, priorities, 999), priorities, 999, q);
  }

  lemma {:induction false} BlocksStable(ps: seq<Proxy>, priorities: seq<string>, r: nat, q: nat)
    requires |priorities| <= 999
    ensures WithRank(Blocks(ps, priorities, r), priorities, q) ==
      if q == 999 || (r <= q < |priorities|) then WithRank(ps, priorities, q) else []
    decreases |priorities| - r
  {
    if r >= |priorities| {
      BlocksStableTail(ps, priorities, r, q);
    } else {
      var a, b := WithRank(ps, priorities, r), Blocks(ps, priorities, r + 1);
      var wb := WithRank(b, priorities, q);
      BlocksStable(ps, priorities, r + 1, q);
      WithRankRanks(ps, priorities, r);
      BlockStep(a, b, priorities, r, q);
      assert WithRank(Blocks(ps, priorities, r), priorities, q) == WithRank(a + b, priorities, q);
      if q == r {
        assert wb == [];
        assert WithRank(a + b, priorities, q) == a + wb;
        assert a + wb == a;
      } else {
        assert WithRank(a + b, priorities, q) == wb;
      }
    }
  }

  /** The sort is a permutation of its input … */
  lemma SortByRankPermutation(ps: seq<Proxy>, priorities: seq<string>)
    requires |priorities| <= 999
    ensures multiset(SortByRank(ps, priorities)) == multiset(ps)
  {
    BlocksPermutation(ps, priorities, 0);
    RankAtLeastAll(ps, priorities);
  }

  /** … ordered by rank … */
  lemma SortByRankSorted(ps: seq<Proxy>, priorities: seq<string>)
    requires |priorities| <= 999
    ensures RankSorted(SortByRank(ps, priorities), priorities)
  {
    BlocksRanks(ps, priorities, 0);
  }

  /**
   * … and stable: the entries of each rank keep their input order, so the result is the JavaScript engine's
   * (stable) `sort` with this comparator.
   */
  lemma SortByRankStable(ps: seq<Proxy>, priorities: seq<string>, q: nat)
    requires |priorities| <= 999
    ensures WithRank(SortByRank(ps, priorities), priorities, q) == WithRank(ps, priorities, q)
  {
    BlocksStable(ps, priorities, 0, q);
    if !(q == 999 || q < |priorities|) {
      NoSuchRank(ps, priorities, q);
    }
  }

  /** Ranks are list indices or 999. */
  lemma {:induction false} NoSuchRank(ps: seq<Proxy>, priorities: seq<string>, q: nat)
    requires q != 999 && q >= |priorities|
    ensures WithRank(ps, priorities, q) == []
  {
    if ps != [] {
      NoSuchRank(ps[..|ps| - 1], priorities, q);
    }
  }

  lemma PrefixMultiset(s: seq<Proxy>, n: nat)
    requires n <= |s|
    ensures multiset(s[..n]) <= multiset(s) && multiset(s) - multiset(s[..n]) == multiset(s[n..])
  {
    assert s == s[..n] + s[n..];
    assert multiset(s) == multiset(s[..n]) + multiset(s[n..]);
  }

  /** A prefix of a rank-sorted list ranks no worse than anything left after it. */
  lemma PrefixBest(sorted: seq<Proxy>, priorities: seq<string>, n: nat)
    requires RankSorted(sorted, priorities) && n <= |sorted|
    ensures multiset(sorted[..n]) <= multiset(sorted)
    ensures RankSorted(sorted[..n], priorities)
    ensures forall p :: p in multiset(sorted) - multiset(sorted[..n]) ==>
      forall i :: 0 <= i < n ==> Rank(priorities, sorted[i].region) <= Rank(priorities, p.region)
  {
    var sel, rest := sorted[..n], sorted[n..];
    PrefixMultiset(sorted, n);
    forall i, j | 0 <= i < j < |sel| ensures Rank(priorities, sel[i].region) <= Rank(priorities, sel[j].region) {
      assert sel[i] == sorted[i] && sel[j] == sorted[j];
    }
    RestRanksNoBetter(sorted, priorities, n);
    forall p | p in multiset(sorted) - multiset(sel)
      ensures forall i :: 0 <= i < n ==> Rank(priorities, sorted[i].region) <= Rank(priorities, p.region)
    {
      assert p in rest;
    }
  }

  lemma RestRanksNoBetter(sorted: seq<Proxy>, priorities: seq<string>, n: nat)
    requires RankSorted(sorted, priorities) && n <= |sorted|
    ensures forall p :: p in sorted[n..] ==> forall i :: 0 <= i < n ==> Rank(priorities, sorted[i].region) <= Rank(priorities, p.region)
  {
    forall p | p in sorted[n..]
      ensures forall i :: 0 <= i < n ==> Rank(priorities, sorted[i].region) <= Rank(priorities, p.region)
    {
      var j :| n <= j < |sorted| && sorted[j] == p;
    }
  }

  /**
   * The first `n` entries of the sort: `n` of them (fewer if there are fewer), all drawn from the input,
   * best-ranked first, and no entry left out ranks better than one chosen.
   */
  lemma TakeSortedCorrect(ps: seq<Proxy>, priorities: seq<string>, n: nat)
    requires |priorities| <= 999
    ensures var sel := Take(SortByRank(ps, priorities), n);
      && |sel| == (if n < |ps| then n else |ps|)
      && multiset(sel) <= multiset(ps)
      && RankSorted(sel, priorities)
      && (forall p :: p in multiset(ps) - multiset(sel) ==>
            forall i :: 0 <= i < |sel| ==> Rank(priorities, sel[i].region) <= Rank(priorities, p.region))
  {
    var sorted := SortByRank(ps, priorities);
    SortByRankPermutation(ps, priorities);
    SortByRankSorted(ps, priorities);
    assert |sorted| == |ps| by { assert |multiset(sorted)| == |multiset(ps)|; }
    var m := if n < |sorted| then n else |sorted|;
    assert Take(sorted, n) == sorted[..m];
    PrefixBest(sorted, priorities, m);
  }

  /** `selectProxies` and `selectProxiesByRegion` choose the best-ranked `limit || 5` entries for the country. */
  lemma SelectProxiesCorrect(ps: seq<Proxy>, country: string, limit: nat, legacy: bool)
    ensures var priorities := if legacy then PrioritiesLegacy(country) else Priorities(country);
      var sel := if legacy then SelectProxiesByRegion(ps, country, limit) else SelectProxies(ps, country, limit);
      && |sel| == (if Limit(limit) < |ps| then Limit(limit) else |ps|)
      && multiset(sel) <= multiset(ps)
      && RankSorted(sel, priorities)
      && (forall p :: p in multiset(ps) - multiset(sel) ==>
            forall i :: 0 <= i < |sel| ==> Rank(priorities, sel[i].region) <= Rank(priorities, p.region))
  {
    var priorities := if legacy then PrioritiesLegacy(country) else Priorities(country);
    assert |priorities| <= 6;
    TakeSortedCorrect(ps, priorities, Limit(limit));
  }
}
