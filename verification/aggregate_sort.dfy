/**
 * The final ordering of the aggregated entries: Python's stable `sorted` with the key
 * `(0, [int(x) for x in ip.split('.')], port or 0)`, or `(1, [0, 0, 0, 0], 0)` when a part is not an integer.
 */
module AggregateSort {
  import opened Wrappers
  import opened Strings
  import opened Aggregate

  /** The two shapes of the key: numeric octets and port, or the unparsable group sorted after them. */
  datatype SortKey = Numeric(octets: seq<int>, port: nat) | Unparsed

  /** `[parse(x) for x in parts]`, or `None` where one `parse` raises. */
  function ParseAll(parts: seq<string>, parse: string -> Option<int>): Option<seq<int>> {
    if parts == [] then Some([])
    else
      match parse(parts[0])
      case None => None
      case Some(v) =>
        match ParseAll(parts[1..], parse)
        case None => None
        case Some(rest) => Some([v] + rest)
  }

  /** The list comprehension succeeds exactly when every element parses, and then holds each element's value. */
  lemma {:induction false} ParseAllSpec(parts: seq<string>, parse: string -> Option<int>)
    ensures var r := ParseAll(parts, parse);
      && (r.Some? <==> forall k :: 0 <= k < |parts| ==> parse(parts[k]).Some?)
      && (r.Some? ==> |r.value| == |parts| && forall k :: 0 <= k < |parts| ==> r.value[k] == parse(parts[k]).value)
  {
    if parts != [] {
      var rest := parts[1..];
      ParseAllSpec(rest, parse);
      var all := forall k :: 0 <= k < |parts| ==> parse(parts[k]).Some?;
      assert all <==> parse(parts[0]).Some? && forall k :: 0 <= k < |rest| ==> parse(rest[k]).Some? by {
        forall k | 0 <= k < |rest| ensures rest[k] == parts[k + 1] { }
        if !all {
          var k :| 0 <= k < |parts| && parse(parts[k]).None?;
          if k > 0 { assert parts[k] == rest[k - 1]; }
        }
      }
      var r := ParseAll(parts, parse);
      if r.Some? {
        var tail := ParseAll(rest, parse).value;
        assert r.value == [parse(parts[0]).value] + tail;
        forall k | 0 <= k < |parts| ensures r.value[k] == parse(parts[k]).value {
          if k > 0 { assert r.value[k] == tail[k - 1] && parts[k] == rest[k - 1]; }
        }
      }
    }
  }

  /** `[int(x) for x in parts]`. */
  function OctetValues(parts: seq<string>): Option<seq<int>> {
    ParseAll(parts, PyInt)
  }

  lemma OctetValuesSpec(parts: seq<string>)
    ensures var r := OctetValues(parts);
      && (r.Some? <==> forall k :: 0 <= k < |parts| ==> PyInt(parts[k]).Some?)
      && (r.Some? ==> |r.value| == |parts| && forall k :: 0 <= k < |parts| ==> r.value[k] == PyInt(parts[k]).value)
  {
    ParseAllSpec(parts, PyInt);
  }

  /** `sort_key`. */
  function KeyOf(e: IPEntry): SortKey {
    match OctetValues(Split(e.ip, '.'))
    case Some(octets) => Numeric(octets, EffectivePort(e))
    case None => Unparsed
  }

  /** Python's `<=` on lists of integers: element by element, a proper prefix first. */
  predicate ListLe(a: seq<int>, b: seq<int>)
    decreases |a|
  {
    a == [] || (b != [] && (a[0] < b[0] || (a[0] == b[0] && ListLe(a[1..], b[1..]))))
  }

  /** Python's `<=` on the key tuples. */
  predicate KeyLe(a: SortKey, b: SortKey) {
    match a
    case Unparsed => b.Unparsed?
    case Numeric(x, p) =>
      match b
      case Unparsed => true
      case Numeric(y, q) => (ListLe(x, y) && x != y) || (x == y && p <= q)
  }

  lemma {:induction false} ListLeTotal(a: seq<int>, b: seq<int>)
    ensures ListLe(a, b) || ListLe(b, a)
    decreases |a|
  {
    if a != [] && b != [] && a[0] == b[0] {
      ListLeTotal(a[1..], b[1..]);
    }
  }

  lemma {:induction false} ListLeAntisymmetric(a: seq<int>, b: seq<int>)
    requires ListLe(a, b) && ListLe(b, a)
    ensures a == b
    decreases |a|
  {
    if a != [] {
      ListLeAntisymmetric(a[1..], b[1..]);
      assert a == [a[0]] + a[1..] && b == [b[0]] + b[1..];
    }
  }

  lemma {:induction false} ListLeTransitive(a: seq<int>, b: seq<int>, c: seq<int>)
    requires ListLe(a, b) && ListLe(b, c)
    ensures ListLe(a, c)
    decreases |a|
  {
    if a != [] && a[0] == b[0] && b[0] == c[0] {
      ListLeTransitive(a[1..], b[1..], c[1..]);
    }
  }

  /** The key order is total and transitive, so sorting by it is well defined. */
  lemma KeyLeTotal(a: SortKey, b: SortKey)
    ensures KeyLe(a, b) || KeyLe(b, a)
  {
    if a.Numeric? && b.Numeric? {
      ListLeTotal(a.octets, b.octets);
    }
  }

  lemma KeyLeTransitive(a: SortKey, b: SortKey, c: SortKey)
    requires KeyLe(a, b) && KeyLe(b, c)
    ensures KeyLe(a, c)
  {
    if a.Numeric? && b.Numeric? && c.Numeric? {
      if a.octets != b.octets && b.octets != c.octets {
        ListLeTransitive(a.octets, b.octets, c.octets);
        if a.octets == c.octets {
          ListLeAntisymmetric(a.octets, b.octets);
        }
      }
    }
  }

  /** Places `e` before the first entry whose key is not below its own: after every smaller key. */
  function Insert(e: IPEntry, sorted: seq<IPEntry>): (r: seq<IPEntry>)
    ensures |r| == |sorted| + 1
  {
    if sorted == [] then [e]
    else if KeyLe(KeyOf(e), KeyOf(sorted[0])) then [e] + sorted
    else [sorted[0]] + Insert(e, sorted[1..])
  }

  /**
   * `sort_entries`, as an insertion sort from the back: an entry goes in front of every later entry with an
   * equal key, which is the order a stable sort keeps.
   */
  function SortEntries(entries: seq<IPEntry>): seq<IPEntry> {
    if entries == [] then [] else Insert(entries[0], SortEntries(entries[1..]))
  }

  predicate Sorted(s: seq<IPEntry>) {
    forall i, j :: 0 <= i < j < |s| ==> KeyLe(KeyOf(s[i]), KeyOf(s[j]))
  }

  lemma {:induction false} InsertPermutation(e: IPEntry, s: seq<IPEntry>)
    ensures multiset(Insert(e, s)) == multiset(s) + multiset{e}
  {
    if s != [] && !KeyLe(KeyOf(e), KeyOf(s[0])) {
      InsertPermutation(e, s[1..]);
      assert s == [s[0]] + s[1..];
    }
  }

  lemma ConsSorted(x: IPEntry, rest: seq<IPEntry>)
    requires Sorted(rest) && forall j :: 0 <= j < |rest| ==> KeyLe(KeyOf(x), KeyOf(rest[j]))
    ensures Sorted([x] + rest)
  {
    forall i, j | 0 <= i < j < |rest| + 1 ensures KeyLe(KeyOf(([x] + rest)[i]), KeyOf(([x] + rest)[j])) {
      assert ([x] + rest)[j] == rest[j - 1];
      if i > 0 { assert ([x] + rest)[i] == rest[i - 1]; }
    }
  }

  lemma {:induction false} InsertSorted(e: IPEntry, s: seq<IPEntry>)
    requires Sorted(s)
    ensures Sorted(Insert(e, s))
  {
    if s != [] {
      if KeyLe(KeyOf(e), KeyOf(s[0])) {
        forall j | 0 <= j < |s| ensures KeyLe(KeyOf(e), KeyOf(s[j])) {
          if j > 0 { KeyLeTransitive(KeyOf(e), KeyOf(s[0]), KeyOf(s[j])); }
        }
        ConsSorted(e, s);
      } else {
        KeyLeTotal(KeyOf(e), KeyOf(s[0]));
        InsertSorted(e, s[1..]);
        InsertPermutation(e, s[1..]);
        var rest := Insert(e, s[1..]);
        forall j | 0 <= j < |rest| ensures KeyLe(KeyOf(s[0]), KeyOf(rest[j])) {
          assert rest[j] in multiset(s[1..]) + multiset{e};
          if rest[j] != e {
            var m :| 0 <= m < |s[1..]| && s[1..][m] == rest[j];
            assert s[m + 1] == rest[j];
          }
        }
        ConsSorted(s[0], rest);
      }
    }
  }

  /** `sort_entries` returns the same entries, ordered by their keys. */
  lemma {:induction false} SortEntriesSpec(entries: seq<IPEntry>)
    ensures var out := SortEntries(entries);
      multiset(out) == multiset(entries) && Sorted(out)
  {
    if entries != [] {
      SortEntriesSpec(entries[1..]);
      InsertPermutation(entries[0], SortEntries(entries[1..]));
      InsertSorted(entries[0], SortEntries(entries[1..]));
      assert entries == [entries[0]] + entries[1..];
    }
  }

  /** Entries whose ip does not parse come after all numeric ones. */
  lemma UnparsedLast(entries: seq<IPEntry>)
    ensures var out := SortEntries(entries);
      forall i, j :: 0 <= i < j < |out| && KeyOf(out[i]).Unparsed? ==> KeyOf(out[j]).Unparsed?
  {
    SortEntriesSpec(entries);
  }

  /**
   * An entry that passes the ip check, as written or corrected, always has four numeric octets, so it sorts
   * among the numeric ones.
   */
  lemma ValidIpNumericKey(e: IPEntry, corrected: bool)
    requires IpAccepted(e.ip, corrected)
    ensures KeyOf(e).Numeric? && |KeyOf(e).octets| == 4
    ensures forall k :: 0 <= k < 4 ==> 0 <= KeyOf(e).octets[k] <= 255
  {
    var parts := Split(e.ip, '.');
    OctetValuesSpec(parts);
    assert forall k :: 0 <= k < 4 ==> Octet(parts[k]) by {
      assert Octet(parts[0]) && Octet(parts[1]) && Octet(parts[2]) && Octet(parts[3]);
    }
  }
}
