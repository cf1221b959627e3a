/** The two JavaScript dictionaries the parser builds: a `Map` (pairs kept in insertion order)
    and a plain object used as a dictionary (assignment to the key `__proto__` changes the
    prototype instead of adding a property, and `Object.entries` lists the keys that are array
    indices first, in increasing numeric order, then the other keys in insertion order). */
module Ordered {
  import opened Wrappers

  /** Key/value pairs in insertion order. */
  type Dict<V> = seq<(string, V)>

  predicate UniqueKeys<V>(d: Dict<V>)
  {
    forall i, j :: 0 <= i < j < |d| ==> d[i].0 != d[j].0
  }

  /** The position of the pair whose key is `k`, searching from `i`; `|d|` when there is none. */
  function KeyIndexFrom<V>(d: Dict<V>, k: string, i: nat): (j: nat)
    requires i <= |d|
    ensures i <= j <= |d|
    ensures j < |d| ==> d[j].0 == k
    ensures forall p :: i <= p < j ==> d[p].0 != k
    decreases |d| - i
  {
    if i == |d| || d[i].0 == k then i else KeyIndexFrom(d, k, i + 1)
  }

  /** The position of the first pair whose key is `k`; `|d|` when there is none. */
  function KeyIndex<V>(d: Dict<V>, k: string): (j: nat)
    ensures j <= |d|
    ensures j < |d| ==> d[j].0 == k
    ensures forall p :: 0 <= p < j ==> d[p].0 != k
  {
    KeyIndexFrom(d, k, 0)
  }

  /** `KeyIndex` is the first position holding `k`, or `|d|`: any position with that
      description is it. */
  lemma KeyIndexExact<V>(d: Dict<V>, k: string, j: nat)
    requires j <= |d| && (j < |d| ==> d[j].0 == k)
    requires forall p :: 0 <= p < j ==> d[p].0 != k
    ensures KeyIndex(d, k) == j
  {
  }

  /** Two dictionaries with the same keys at the same positions place every key alike. */
  lemma SameKeysSameIndex<V, W>(d: Dict<V>, e: Dict<W>, k: string)
    requires |d| == |e| && forall p :: 0 <= p < |d| ==> d[p].0 == e[p].0
    ensures KeyIndex(d, k) == KeyIndex(e, k)
  {
    KeyIndexExact(e, k, KeyIndex(d, k));
  }

  /** `Map.prototype.get` (or a property read): the value stored under `k`, if any. */
  function Find<V>(d: Dict<V>, k: string): (r: Option<V>)
    ensures r.Some? <==> exists i :: 0 <= i < |d| && d[i].0 == k
    ensures r.Some? ==> (k, r.value) in d
  {
    var i := KeyIndex(d, k);
    if i < |d| then Some(d[i].1) else None
  }

  /** With unique keys, a listed pair is what `Find` returns for its key. */
  lemma FindListed<V>(d: Dict<V>, k: string, v: V)
    requires UniqueKeys(d) && (k, v) in d
    ensures Find(d, k) == Some(v)
  {
    var i :| 0 <= i < |d| && d[i] == (k, v);
    var j := KeyIndex(d, k);
    assert j < |d| && d[j].0 == d[i].0;
  }

  /** `Map.prototype.set` (or a property assignment): the value of an existing key is replaced
      where it stands, a new key is appended. */
  function Put<V>(d: Dict<V>, k: string, v: V): (r: Dict<V>)
    ensures Find(d, k).None? ==> r == d + [(k, v)]
    ensures Find(d, k).Some? ==> |r| == |d| && forall i :: 0 <= i < |d| ==> r[i].0 == d[i].0
  {
    var i := KeyIndex(d, k);
    if i < |d| then d[i := (k, v)] else d + [(k, v)]
  }

  /** After `Put`, `k` maps to `v` and every other key keeps its value. */
  lemma PutFind<V>(d: Dict<V>, k: string, v: V, k': string)
    ensures Find(Put(d, k, v), k') == if k' == k then Some(v) else Find(d, k')
  {
    var r := Put(d, k, v);
    var i := KeyIndex(d, k);
    if i < |d| {
      SameKeysSameIndex(r, d, k');
    } else {
      var j := KeyIndex(d, k');
      if j < |d| || k' == k {
        assert forall p :: 0 <= p < j ==> r[p] == d[p];
        KeyIndexExact(r, k', j);
      } else {
        assert forall p :: 0 <= p < |d| ==> r[p] == d[p];
        KeyIndexExact(r, k', |r|);
      }
    }
  }

  /** No key is ever listed twice. */
  lemma PutKeepsKeysUnique<V>(d: Dict<V>, k: string, v: V)
    requires UniqueKeys(d)
    ensures UniqueKeys(Put(d, k, v))
  {
    var r := Put(d, k, v);
    if Find(d, k).None? {
      forall i, j | 0 <= i < j < |r| ensures r[i].0 != r[j].0 {
        if j == |d| {
          assert r[i] == d[i];
        } else {
          assert r[i] == d[i] && r[j] == d[j];
        }
      }
    }
  }

  /** The property name whose assignment on a plain object sets the prototype. */
  const ProtoKey: string := "__proto__"

  /** `obj[k] = v` on a plain object created by `{}`. */
  function Assign<V>(obj: Dict<V>, k: string, v: V): Dict<V>
  {
    if k == ProtoKey then obj else Put(obj, k, v)
  }

  /** After `obj[k] = v`, reading `k` gives `v` unless `k` is `__proto__`; every other key keeps
      its value. */
  lemma AssignFind<V>(obj: Dict<V>, k: string, v: V, k': string)
    ensures Find(Assign(obj, k, v), k') == if k' == k && k != ProtoKey then Some(v) else Find(obj, k')
  {
    if k != ProtoKey {
      PutFind(obj, k, v, k');
    }
  }

  predicate IsDigit(c: char)
  {
    '0' <= c <= '9'
  }

  predicate AllDigits(s: string)
  {
    forall i :: 0 <= i < |s| ==> IsDigit(s[i])
  }

  function DecimalValue(s: string): nat
    requires AllDigits(s)
  {
    if s == [] then 0 else 10 * DecimalValue(s[..|s| - 1]) + (s[|s| - 1] as int - '0' as int)
  }

  /** The largest array index plus one: 2^32 - 1. */
  const IndexBound: nat := 0xFFFF_FFFF

  /** A property key that is an array index: the canonical decimal spelling of an integer
      below 2^32 - 1. */
  predicate IsArrayIndex(k: string)
  {
    && |k| >= 1
    && AllDigits(k)
    && (k[0] != '0' || k == "0")
    && DecimalValue(k) < IndexBound
  }

  predicate AllIndexKeys<V(!new)>(d: Dict<V>)
  {
    forall i :: 0 <= i < |d| ==> IsArrayIndex(d[i].0)
  }

  predicate SortedByIndex<V(!new)>(d: Dict<V>)
  {
    && AllIndexKeys(d)
    && forall i, j :: 0 <= i < j < |d| ==> DecimalValue(d[i].0) <= DecimalValue(d[j].0)
  }

  function InsertByIndex<V(!new)>(sorted: Dict<V>, e: (string, V)): (r: Dict<V>)
    requires SortedByIndex(sorted) && IsArrayIndex(e.0)
    ensures SortedByIndex(r)
    ensures multiset(r) == multiset(sorted) + multiset{e}
  {
    if sorted == [] then [e]
    else if DecimalValue(e.0) <= DecimalValue(sorted[0].0) then [e] + sorted
    else
      var rest := InsertByIndex(sorted[1..], e);
      InsertedAfterHead(sorted, e, rest);
      [sorted[0]] + rest
  }

  lemma InsertedAfterHead<V(!new)>(sorted: Dict<V>, e: (string, V), rest: Dict<V>)
    requires SortedByIndex(sorted) && IsArrayIndex(e.0) && sorted != []
    requires DecimalValue(sorted[0].0) < DecimalValue(e.0)
    requires SortedByIndex(rest) && multiset(rest) == multiset(sorted[1..]) + multiset{e}
    ensures SortedByIndex([sorted[0]] + rest)
    ensures multiset([sorted[0]] + rest) == multiset(sorted) + multiset{e}
  {
    var r := [sorted[0]] + rest;
    assert sorted == [sorted[0]] + sorted[1..];
    forall j | 0 < j < |r| ensures DecimalValue(r[0].0) <= DecimalValue(r[j].0) {
      assert r[j] in multiset(rest);
      if r[j] != e {
        assert r[j] in multiset(sorted[1..]);
      }
    }
  }

  /** The entries whose keys are array indices, in increasing numeric order. */
  function IndexEntries<V(!new)>(obj: Dict<V>): (r: Dict<V>)
    ensures SortedByIndex(r)
    ensures forall e :: e in r <==> e in obj && IsArrayIndex(e.0)
    ensures multiset(r) <= multiset(obj)
  {
    if obj == [] then []
    else
      var rest := IndexEntries(obj[1..]);
      assert obj == [obj[0]] + obj[1..];
      if IsArrayIndex(obj[0].0) then
        var r := InsertByIndex(rest, obj[0]);
        assert forall e :: e in r <==> e in multiset(r);
        r
      else rest
  }

  /** The entries whose keys are not array indices, in insertion order. */
  function NamedEntries<V(!new)>(obj: Dict<V>): (r: Dict<V>)
    ensures forall e :: e in r <==> e in obj && !IsArrayIndex(e.0)
    ensures multiset(r) <= multiset(obj)
  {
    if obj == [] then []
    else
      assert obj == [obj[0]] + obj[1..];
      (if IsArrayIndex(obj[0].0) then [] else [obj[0]]) + NamedEntries(obj[1..])
  }

  /** The non-index keys keep their insertion order: a property added last is listed last, and
      an array-index key is not listed among them at all. With `NamedEntries([]) == []` this fixes
      the list as the in-order filter of `obj`. */
  lemma {:induction false} NamedEntriesSnoc<V(!new)>(obj: Dict<V>, e: (string, V))
    ensures NamedEntries(obj + [e]) == NamedEntries(obj) + (if IsArrayIndex(e.0) then [] else [e])
    decreases |obj|
  {
    if obj == [] {
      assert [e][1..] == [];
    } else {
      assert (obj + [e])[0] == obj[0];
      assert (obj + [e])[1..] == obj[1..] + [e];
      NamedEntriesSnoc(obj[1..], e);
    }
  }

  /** `Object.entries`: the pairs of `obj`, the array-index keys first in increasing numeric
      order, then the others in insertion order. */
  function OwnEntries<V(!new)>(obj: Dict<V>): Dict<V>
  {
    IndexEntries(obj) + NamedEntries(obj)
  }

  /** `Object.entries` lists exactly the pairs of the object, each as often as it occurs. */
  lemma OwnEntriesSamePairs<V(!new)>(obj: Dict<V>)
    ensures multiset(OwnEntries(obj)) == multiset(obj)
  {
    OwnEntriesPermutation(obj);
  }

  /** A pair is listed by `Object.entries` exactly when the object holds it. */
  lemma OwnEntriesMember<V(!new)>(obj: Dict<V>, e: (string, V))
    ensures e in OwnEntries(obj) <==> e in obj
  {
    OwnEntriesPermutation(obj);
    assert e in OwnEntries(obj) <==> e in multiset(OwnEntries(obj));
  }

  /** `Object.entries` lists the array-index keys first, in increasing numeric order. */
  lemma OwnEntriesOrder<V(!new)>(obj: Dict<V>)
    ensures var r := OwnEntries(obj);
      exists n :: 0 <= n <= |r| && SortedByIndex(r[..n]) && forall i :: n <= i < |r| ==> !IsArrayIndex(r[i].0)
  {
    var ix := IndexEntries(obj);
    var r := OwnEntries(obj);
    assert r[..|ix|] == ix;
    assert forall i :: |ix| <= i < |r| ==> r[i] in NamedEntries(obj);
  }

  lemma {:induction false} OwnEntriesPermutation<V(!new)>(obj: Dict<V>)
    ensures multiset(IndexEntries(obj) + NamedEntries(obj)) == multiset(obj)
  {
    if obj != [] {
      OwnEntriesPermutation(obj[1..]);
      var ix, nm := IndexEntries(obj[1..]), NamedEntries(obj[1..]);
      assert obj == [obj[0]] + obj[1..];
      assert multiset(IndexEntries(obj)) + multiset(NamedEntries(obj)) == multiset{obj[0]} + multiset(ix) + multiset(nm);
    }
  }
}
