/**
 * The protocol negotiator of the two negotiating workers: the module-level `protocolCache` dictionary with
 * its TTL (`getCached` / `setCache`), the KV mirror it writes to, `probeHttps`, and the precedence of
 * `resolveProtocol`. The clock, the KV read and the probe's HEAD request are inputs: `now` is `Date.now()`
 * when the memory cache is read, `stamp` is `Date.now()` after the awaited KV read or probe.
 */
module Negotiator {
  import opened Wrappers
  import opened Strings
  import opened Target

  /** `PROTOCOL_CACHE_TTL`, in seconds. */
  const ProtocolCacheTtl: int := 86400

  /** A `protocolCache` value: `{ p, ts }`. */
  datatype Entry = Entry(p: Scheme, ts: int)

  /** A `kvPut('proto_' + key, { p }, { expirationTtl })` issued by `setCache`. */
  datatype KvWrite = KvWrite(key: string, p: Scheme, expirationTtl: int)

  /** `Date.now() - c.ts < PROTOCOL_CACHE_TTL * 1000`. */
  predicate Fresh(e: Entry, now: int) {
    now - e.ts < ProtocolCacheTtl * 1000
  }

  /** `(port || 'default')`: no port and port 0 both become `default`. */
  function PortKey(port: Option<nat>): string {
    match port
    case None => "default"
    case Some(n) => if n == 0 then "default" else NatToString(n)
  }

  /** `hostname + ':' + (port || 'default')`. */
  function CacheKey(hostname: string, port: Option<nat>): string {
    hostname + ":" + PortKey(port)
  }

  /** `'proto_' + key`, the KV key of a cache entry. */
  function KvKey(hostname: string, port: Option<nat>): string {
    "proto_" + CacheKey(hostname, port)
  }

  /** Distinct ports other than 0 have distinct keys; 0 shares the key of "no port". */
  lemma PortKeyInjective(a: Option<nat>, b: Option<nat>)
    ensures PortKey(a) == PortKey(b) <==> a.GetOr(0) == b.GetOr(0)
  {
    var x, y := a.GetOr(0), b.GetOr(0);
    if x != 0 { NatToStringValue(x); }
    if y != 0 { NatToStringValue(y); }
    if x == 0 && y != 0 {
      assert PortKey(b)[0] != 'd' by { assert IsDigit(NatToString(y)[0]); }
    }
    if x != 0 && y == 0 {
      assert PortKey(a)[0] != 'd' by { assert IsDigit(NatToString(x)[0]); }
    }
  }

  /** A hostname without `:` (as `parseTargetUrl` produces) and a port determine the key, and the key determines them. */
  lemma CacheKeyInjective(h1: string, p1: Option<nat>, h2: string, p2: Option<nat>)
    requires ':' !in h1 && ':' !in h2
    ensures CacheKey(h1, p1) == CacheKey(h2, p2) <==> h1 == h2 && p1.GetOr(0) == p2.GetOr(0)
  {
    PortKeyInjective(p1, p2);
    CacheKeySplit(h1, p1);
    CacheKeySplit(h2, p2);
  }

  /** The key's first `:` ends the hostname; the port key follows it. */
  lemma CacheKeySplit(h: string, p: Option<nat>)
    requires ':' !in h
    ensures var k := CacheKey(h, p);
      FirstIndex(k, ':') == |h| && k[..|h|] == h && k[|h| + 1..] == PortKey(p)
  {
    var k := CacheKey(h, p);
    assert k[..|h|] == h;
    assert k[|h|] == ':';
    assert k[|h| + 1..] == PortKey(p);
  }

  /** What the probe's HEAD request did: answered with a status, or threw. */
  datatype ProbeOutcome = Answered(status: int) | Threw

  /** `probeHttps`: https is usable unless the HEAD request threw or answered with a 5xx status. */
  function ProbeHttps(o: ProbeOutcome): (ok: bool)
    ensures ok <==> o.Answered? && !(500 <= o.status < 600)
  {
    match o
    case Answered(status) => status < 500 || status >= 600
    case Threw => false
  }

  /** Which step of `resolveProtocol` produced the answer. */
  datatype Source = Hint | StandardPort | MemoryHit | KvHit | Probed

  /** The answer of `resolveProtocol` and the cache it leaves behind. */
  datatype Resolution = Resolution(protocol: Scheme, source: Source, memory: map<string, Entry>, kvWrites: seq<KvWrite>)

  /** `getCached` over a given cache. */
  function Lookup(memory: map<string, Entry>, key: string, now: int): Option<Scheme> {
    if key in memory && Fresh(memory[key], now) then Some(memory[key].p) else None
  }

  /** `setCache` over a given cache: the entry is overwritten with the current time and mirrored to KV. */
  function Store(memory: map<string, Entry>, hostname: string, port: Option<nat>, p: Scheme, stamp: int): map<string, Entry> {
    memory[CacheKey(hostname, port) := Entry(p, stamp)]
  }

  function StoreWrite(hostname: string, port: Option<nat>, p: Scheme): KvWrite {
    KvWrite(KvKey(hostname, port), p, ProtocolCacheTtl)
  }

  /**
   * `resolveProtocol(hostname, port, userProtocol)` over the cache `memory`: `kv` is what `kvGet` returned
   * (`None` for a miss or a failed read), `probe` what the HEAD request of `probeHttps` did.
   */
  function Resolve(memory: map<string, Entry>, hostname: string, port: Option<nat>, hint: Option<Scheme>,
                   now: int, stamp: int, kv: Option<Scheme>, probe: ProbeOutcome): Resolution
  {
    if hint.Some? then Resolution(hint.value, Hint, memory, [])
    else if port == Some(443) then Resolution(Https, StandardPort, memory, [])
    else if port == Some(80) then Resolution(Http, StandardPort, memory, [])
    else
      var key := CacheKey(hostname, port);
      match Lookup(memory, key, now)
      case Some(p) => Resolution(p, MemoryHit, memory, [])
      case None =>
        if kv.Some? then Resolution(kv.value, KvHit, memory[key := Entry(kv.value, stamp)], [])
        else
          var p := if ProbeHttps(probe) then Https else Http;
          Resolution(p, Probed, Store(memory, hostname, port, p, stamp), [StoreWrite(hostname, port, p)])
  }

  /** The `protocolCache` dictionary and the KV writes issued so far. */
  class ProtocolCache {
    var memory: map<string, Entry>
    var kvWrites: seq<KvWrite>

    constructor()
      ensures memory == map[] && kvWrites == []
    {
      memory := map[];
      kvWrites := [];
    }

    /** `getCached(hostname, port)` at time `now`. */
    method GetCached(hostname: string, port: Option<nat>, now: int) returns (r: Option<Scheme>)
      ensures var key := CacheKey(hostname, port);
        r.Some? <==> key in memory && Fresh(memory[key], now)
      ensures r.Some? ==> r.value == memory[CacheKey(hostname, port)].p
    {
      var key := CacheKey(hostname, port);
      if key in memory && Fresh(memory[key], now) {
        r := Some(memory[key].p);
      } else {
        r := None;
      }
    }

    /** `setCache(hostname, port, protocol)` at time `stamp`. */
    method SetCache(hostname: string, port: Option<nat>, p: Scheme, stamp: int)
      modifies this
      ensures memory == Store(old(memory), hostname, port, p, stamp)
      ensures kvWrites == old(kvWrites) + [StoreWrite(hostname, port, p)]
    {
      memory := memory[CacheKey(hostname, port) := Entry(p, stamp)];
      kvWrites := kvWrites + [StoreWrite(hostname, port, p)];
    }

    /** `resolveProtocol(hostname, port, userProtocol)`. */
    method ResolveProtocol(hostname: string, port: Option<nat>, hint: Option<Scheme>,
                           now: int, stamp: int, kv: Option<Scheme>, probe: ProbeOutcome)
      returns (p: Scheme, source: Source)
      modifies this
      ensures var r := Resolve(old(memory), hostname, port, hint, now, stamp, kv, probe);
        && p == r.protocol && source == r.source
        && memory == r.memory && kvWrites == old(kvWrites) + r.kvWrites
    {
      if hint.Some? {
        return hint.value, Hint;
      }
      if port == Some(443) {
        return Https, StandardPort;
      }
      if port == Some(80) {
        return Http, StandardPort;
      }
      var cached := GetCached(hostname, port, now);
      if cached.Some? {
        return cached.value, MemoryHit;
      }
      var key := CacheKey(hostname, port);
      if kv.Some? {
        memory := memory[key := Entry(kv.value, stamp)];
        return kv.value, KvHit;
      }
      var httpsOk := ProbeHttps(probe);
      p := if httpsOk then Https else Http;
      SetCache(hostname, port, p, stamp);
      source := Probed;
    }
  }

  // ------------------------------------------------------------------ properties of the negotiator

  /** The first three steps answer without reading or writing the cache; the later ones never override them. */
  lemma ResolvePrecedence(memory: map<string, Entry>, hostname: string, port: Option<nat>, hint: Option<Scheme>,
                          now: int, stamp: int, kv: Option<Scheme>, probe: ProbeOutcome)
    ensures var r := Resolve(memory, hostname, port, hint, now, stamp, kv, probe);
      && (hint.Some? ==> r.protocol == hint.value)
      && (hint.None? && port == Some(443) ==> r.protocol == Https)
      && (hint.None? && port == Some(80) ==> r.protocol == Http)
      && (r.source in {Hint, StandardPort} <==> hint.Some? || port in {Some(443), Some(80)})
      && (r.source in {Hint, StandardPort} ==> r.memory == memory && r.kvWrites == [])
  {
  }

  /** A fresh memory entry answers, and then neither the KV answer nor the probe matters. */
  lemma FreshEntryWins(memory: map<string, Entry>, hostname: string, port: Option<nat>,
                       now: int, stamp: int, kv1: Option<Scheme>, probe1: ProbeOutcome,
                       stamp2: int, kv2: Option<Scheme>, probe2: ProbeOutcome)
    requires port !in {Some(443), Some(80)}
    requires CacheKey(hostname, port) in memory && Fresh(memory[CacheKey(hostname, port)], now)
    ensures var r := Resolve(memory, hostname, port, None, now, stamp, kv1, probe1);
      && r == Resolve(memory, hostname, port, None, now, stamp2, kv2, probe2)
      && r.protocol == memory[CacheKey(hostname, port)].p && r.memory == memory
  {
  }

  /** An entry older than the TTL is ignored: the answer comes from KV or the probe and is re-stamped. */
  lemma StaleEntryIgnored(memory: map<string, Entry>, hostname: string, port: Option<nat>,
                          now: int, stamp: int, kv: Option<Scheme>, probe: ProbeOutcome)
    requires port !in {Some(443), Some(80)}
    requires CacheKey(hostname, port) in memory && !Fresh(memory[CacheKey(hostname, port)], now)
    ensures var r := Resolve(memory, hostname, port, None, now, stamp, kv, probe);
      && r.source in {KvHit, Probed}
      && r.memory[CacheKey(hostname, port)] == Entry(r.protocol, stamp)
  {
  }

  /** Only the probe writes to KV; a KV answer is copied into memory without being written back. */
  lemma OnlyProbeWritesKv(memory: map<string, Entry>, hostname: string, port: Option<nat>, hint: Option<Scheme>,
                          now: int, stamp: int, kv: Option<Scheme>, probe: ProbeOutcome)
    ensures var r := Resolve(memory, hostname, port, hint, now, stamp, kv, probe);
      && (r.kvWrites != [] <==> r.source == Probed)
      && (r.source == Probed ==> r.kvWrites == [KvWrite("proto_" + CacheKey(hostname, port), r.protocol, 86400)]
                                 && (r.protocol == Https <==> ProbeHttps(probe)))
      && (r.source == KvHit ==> kv == Some(r.protocol))
  {
  }

  /**
   * When nothing earlier answers, the probe decides: any answer outside 500-599 (a redirect or a 4xx
   * included) resolves to https, a 5xx answer or a thrown request to http, and that protocol is what memory
   * and KV then hold for the key.
   */
  lemma ProbeDecides(memory: map<string, Entry>, hostname: string, port: Option<nat>,
                     now: int, stamp: int, probe: ProbeOutcome)
    requires port !in {Some(443), Some(80)}
    requires Lookup(memory, CacheKey(hostname, port), now).None?
    ensures var r := Resolve(memory, hostname, port, None, now, stamp, None, probe);
      && r.source == Probed
      && (probe.Answered? && !(500 <= probe.status < 600) ==> r.protocol == Https)
      && (probe.Threw? || 500 <= probe.status < 600 ==> r.protocol == Http)
      && r.memory[CacheKey(hostname, port)] == Entry(r.protocol, stamp)
      && r.kvWrites == [KvWrite(KvKey(hostname, port), r.protocol, ProtocolCacheTtl)]
  {
  }

  /** Resolution touches only its own key. */
  lemma ResolveFrame(memory: map<string, Entry>, hostname: string, port: Option<nat>, hint: Option<Scheme>,
                     now: int, stamp: int, kv: Option<Scheme>, probe: ProbeOutcome, other: string)
    requires other != CacheKey(hostname, port)
    ensures var r := Resolve(memory, hostname, port, hint, now, stamp, kv, probe);
      && (other in r.memory <==> other in memory)
      && (other in memory ==> r.memory[other] == memory[other])
  {
  }

  /**
   * A second resolution within the TTL of the first one's store returns the same protocol from memory,
   * without consulting KV or probing, whatever they would answer.
   */
  lemma ResolveIdempotentWithinTtl(memory: map<string, Entry>, hostname: string, port: Option<nat>,
                                   now: int, stamp: int, kv: Option<Scheme>, probe: ProbeOutcome,
                                   now2: int, stamp2: int, kv2: Option<Scheme>, probe2: ProbeOutcome)
    requires now2 - stamp < ProtocolCacheTtl * 1000
    ensures var r1 := Resolve(memory, hostname, port, None, now, stamp, kv, probe);
      var r2 := Resolve(r1.memory, hostname, port, None, now2, stamp2, kv2, probe2);
      r1.source in {KvHit, Probed} ==> r2 == Resolution(r1.protocol, MemoryHit, r1.memory, [])
  {
  }

  /** After `setCache(…, 'http')` every resolution without a hint or a standard port answers http until the TTL runs out. */
  lemma DowngradeIsSticky(memory: map<string, Entry>, hostname: string, port: Option<nat>, stamp: int,
                          now2: int, stamp2: int, kv2: Option<Scheme>, probe2: ProbeOutcome)
    requires port !in {Some(443), Some(80)}
    requires now2 - stamp < ProtocolCacheTtl * 1000
    ensures Resolve(Store(memory, hostname, port, Http, stamp), hostname, port, None, now2, stamp2, kv2, probe2).protocol == Http
  {
  }
}
