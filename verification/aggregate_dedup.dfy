/**
 * Deduplication of the aggregated entries by address. The `seen` dictionary of the script is a map together with
 * its keys in insertion order (a Python dictionary keeps that order, and `seen.values()` follows it).
 */
module AggregateDedup {
  import opened Strings
  import opened Aggregate

  /** The `seen` dictionary: its keys in insertion order and the entry kept under each. */
  datatype Seen = Seen(keys: seq<string>, byKey: map<string, IPEntry>)

  /**
   * What a later entry with an already seen address does to the kept one: it replaces an entry without a
   * country when it has one; otherwise, when it has a network type and the kept one does not, it gives its
   * network type and each of its non-empty country, region, city and ISP to the kept entry; otherwise nothing.
   */
  function Merge(existing: IPEntry, entry: IPEntry): IPEntry {
    if entry.country != "" && existing.country == "" then entry
    else if entry.netType != "" && existing.netType == "" then
      existing.(netType := entry.netType,
                country := Or(entry.country, existing.country),
                region := Or(entry.region, existing.region),
                city := Or(entry.city, existing.city),
                isp := Or(entry.isp, existing.isp))
    else existing
  }

  /** One turn of the loop of `deduplicate_entries`. */
  function Absorb(s: Seen, e: IPEntry): Seen {
    var k := Address(e);
    if k !in s.byKey then Seen(s.keys + [k], s.byKey[k := e])
    else Seen(s.keys, s.byKey[k := Merge(s.byKey[k], e)])
  }

  /** The dictionary after the loop has run over `entries`. */
  function Fold(entries: seq<IPEntry>): (s: Seen)
    ensures forall i :: 0 <= i < |s.keys| ==> s.keys[i] in s.byKey
  {
    if entries == [] then Seen([], map[])
    else Absorb(Fold(entries[..|entries| - 1]), entries[|entries| - 1])
  }

  /** What `deduplicate_entries` returns: the kept entries in the order their addresses were first seen. */
  function Deduplicated(entries: seq<IPEntry>): seq<IPEntry> {
    var s := Fold(entries);
    seq(|s.keys|, i requires 0 <= i < |s.keys| => s.byKey[s.keys[i]])
  }

  /** `deduplicate_entries`. */
  method DeduplicateEntries(entries: seq<IPEntry>) returns (unique: seq<IPEntry>)
    ensures unique == Deduplicated(entries)
  {
    var keys: seq<string> := [];
    var seen: map<string, IPEntry> := map[];
    for i := 0 to |entries|
      invariant Seen(keys, seen) == Fold(entries[..i])
    {
      assert entries[..i + 1][..i] == entries[..i];
      var entry := entries[i];
      var key := Address(entry);
      if key !in seen {
        seen := seen[key := entry];
        keys := keys + [key];
      } else {
        var existing := seen[key];
        if entry.country != "" && existing.country == "" {
          seen := seen[key := entry];
        } else if entry.netType != "" && existing.netType == "" {
          existing := existing.(netType := entry.netType,
                                country := Or(entry.country, existing.country),
                                region := Or(entry.region, existing.region),
                                city := Or(entry.city, existing.city),
                                isp := Or(entry.isp, existing.isp));
          seen := seen[key := existing];
        }
      }
    }
    assert entries[..|entries|] == entries;
    unique := seq(|keys|, j requires 0 <= j < |keys| => seen[keys[j]]);
  }

  // ---------------------------------------------------------------- the reference order

  /** Each address once, in the order of its first occurrence. */
  function FirstOccurrences(xs: seq<string>): seq<string> {
    if xs == [] then []
    else
      var r := FirstOccurrences(xs[..|xs| - 1]);
      if xs[|xs| - 1] in r then r else r + [xs[|xs| - 1]]
  }

  function Addresses(entries: seq<IPEntry>): (a: seq<string>)
    ensures |a| == |entries| && forall i :: 0 <= i < |entries| ==> a[i] == Address(entries[i])
  {
    seq(|entries|, i requires 0 <= i < |entries| => Address(entries[i]))
  }

  /** The first occurrences are the same elements, each once, and no more of them than the input has. */
  lemma {:induction false} FirstOccurrencesSpec(xs: seq<string>)
    ensures var r := FirstOccurrences(xs);
      && |r| <= |xs|
      && (forall x :: x in r <==> x in xs)
      && (forall i, j :: 0 <= i < j < |r| ==> r[i] != r[j])
  {
    if xs != [] {
      FirstOccurrencesSpec(xs[..|xs| - 1]);
      assert xs == xs[..|xs| - 1] + [xs[|xs| - 1]];
    }
  }

  /** The dictionary holds exactly the input addresses, and lists each of its keys. */
  lemma {:induction false} FoldDomain(entries: seq<IPEntry>)
    ensures forall k :: k in Fold(entries).byKey <==> k in Addresses(entries)
    ensures forall k :: k in Fold(entries).byKey <==> k in Fold(entries).keys
  {
    if entries != [] {
      var init := entries[..|entries| - 1];
      FoldDomain(init);
      assert Addresses(entries) == Addresses(init) + [Address(entries[|entries| - 1])];
    }
  }

  /** Each key is the address of the entry kept under it. */
  lemma {:induction false} FoldKeyAddress(entries: seq<IPEntry>)
    ensures forall k :: k in Fold(entries).byKey ==> Address(Fold(entries).byKey[k]) == k
  {
    if entries != [] {
      var init := entries[..|entries| - 1];
      var e := entries[|entries| - 1];
      FoldKeyAddress(init);
      var s := Fold(init);
      if Address(e) in s.byKey {
        MergeSpec(s.byKey[Address(e)], e);
      }
    }
  }

  /** The dictionary's keys are the first occurrences of the input addresses. */
  lemma {:induction false} FoldKeys(entries: seq<IPEntry>)
    ensures Fold(entries).keys == FirstOccurrences(Addresses(entries))
  {
    if entries != [] {
      var init := entries[..|entries| - 1];
      FoldKeys(init);
      FoldDomain(init);
      assert Addresses(entries) == Addresses(init) + [Address(entries[|entries| - 1])];
      assert Addresses(entries)[..|entries| - 1] == Addresses(init);
    }
  }

  /**
   * `deduplicate_entries` returns one entry per address: their addresses are pairwise distinct, they are
   * exactly the input addresses in the order of their first occurrence, and there are no more of them than
   * input entries.
   */
  lemma DeduplicatedSpec(entries: seq<IPEntry>)
    ensures var out := Deduplicated(entries);
      && |out| <= |entries|
      && Addresses(out) == FirstOccurrences(Addresses(entries))
      && (forall i, j :: 0 <= i < j < |out| ==> Address(out[i]) != Address(out[j]))
      && (forall n :: 0 <= n < |entries| ==> exists j :: 0 <= j < |out| && Address(out[j]) == Address(entries[n]))
  {
    var out := Deduplicated(entries);
    var s := Fold(entries);
    FoldKeys(entries);
    FoldDomain(entries);
    FoldKeyAddress(entries);
    FirstOccurrencesSpec(Addresses(entries));
    assert Addresses(out) == s.keys;
    forall n | 0 <= n < |entries| ensures exists j :: 0 <= j < |out| && Address(out[j]) == Address(entries[n]) {
      assert Addresses(entries)[n] in s.keys;
      var j :| 0 <= j < |s.keys| && s.keys[j] == Address(entries[n]);
      assert Address(out[j]) == s.keys[j];
    }
  }

  // ---------------------------------------------------------------- what is kept

  /** Some entry with address `k` has a country. */
  predicate CountryKnown(entries: seq<IPEntry>, k: string) {
    exists n :: 0 <= n < |entries| && Address(entries[n]) == k && entries[n].country != ""
  }

  /**
   * A merge keeps the address, has a country exactly when one of the two had one, and takes each of its
   * other fields from one of the two entries.
   */
  lemma MergeSpec(existing: IPEntry, entry: IPEntry)
    requires Address(existing) == Address(entry)
    ensures var m := Merge(existing, entry);
      && Address(m) == Address(existing)
      && (m.country != "" <==> existing.country != "" || entry.country != "")
      && (m.region == existing.region || m.region == entry.region)
      && (m.city == existing.city || m.city == entry.city)
      && (m.isp == existing.isp || m.isp == entry.isp)
      && (m.netType == existing.netType || m.netType == entry.netType)
      && (m.source == existing.source || m.source == entry.source)
  {
  }

  lemma CountryKnownSnoc(entries: seq<IPEntry>, k: string)
    requires entries != []
    ensures var e := entries[|entries| - 1];
      CountryKnown(entries, k) <==>
      CountryKnown(entries[..|entries| - 1], k) || (Address(e) == k && e.country != "")
  {
    var init := entries[..|entries| - 1];
    if CountryKnown(init, k) {
      var n :| 0 <= n < |init| && Address(init[n]) == k && init[n].country != "";
      assert entries[n] == init[n];
    }
    if CountryKnown(entries, k) {
      var n :| 0 <= n < |entries| && Address(entries[n]) == k && entries[n].country != "";
      if n < |init| { assert entries[n] == init[n]; }
    }
  }

  lemma CountryKnownAddress(entries: seq<IPEntry>, k: string)
    ensures CountryKnown(entries, k) ==> k in Addresses(entries)
  {
    if CountryKnown(entries, k) {
      var n :| 0 <= n < |entries| && Address(entries[n]) == k && entries[n].country != "";
      assert Addresses(entries)[n] == k;
    }
  }

  /** The entry kept for an address has a country exactly when some input entry with that address has one. */
  lemma {:induction false} FoldCountry(entries: seq<IPEntry>, k: string)
    requires k in Fold(entries).byKey
    ensures Fold(entries).byKey[k].country != "" <==> CountryKnown(entries, k)
  {
    var init := entries[..|entries| - 1];
    var e := entries[|entries| - 1];
    var s := Fold(init);
    FoldDomain(init);
    FoldKeyAddress(init);
    CountryKnownSnoc(entries, k);
    CountryKnownAddress(init, k);
    if k in s.byKey {
      FoldCountry(init, k);
      if k == Address(e) {
        MergeSpec(s.byKey[k], e);
      }
    }
  }

  /** After deduplication an entry has a country exactly when some input entry with its address had one. */
  lemma DeduplicatedCountry(entries: seq<IPEntry>)
    ensures var out := Deduplicated(entries);
      forall j :: 0 <= j < |out| ==> (out[j].country != "" <==> CountryKnown(entries, Address(out[j])))
  {
    var out := Deduplicated(entries);
    var s := Fold(entries);
    FoldKeyAddress(entries);
    forall j | 0 <= j < |out| ensures out[j].country != "" <==> CountryKnown(entries, Address(out[j])) {
      FoldCountry(entries, s.keys[j]);
    }
  }
}
