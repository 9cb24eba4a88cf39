/**
 * QMap<QString, V> as this backend relies on it: entries kept in ascending
 * key order with no key twice, `insert` replacing the value of an existing
 * key, `contains`/`value` looking a key up and `keys` listing the keys in
 * order.  The map is modelled as a strictly sorted association list.
 */
module OrderedMap {
  import opened Wrappers

  /**
   * QString's operator<: lexicographic over characters, a proper prefix
   * ordering first.
   */
  predicate Less(a: string, b: string)
    decreases |a|
  {
    if |a| == 0 then |b| > 0
    else if |b| == 0 then false
    else a[0] < b[0] || (a[0] == b[0] && Less(a[1..], b[1..]))
  }

  lemma {:induction false} LessIrreflexive(a: string)
    ensures !Less(a, a)
    decreases |a|
  {
    if |a| > 0 {
      LessIrreflexive(a[1..]);
    }
  }

  lemma {:induction false} LessTransitive(a: string, b: string, c: string)
    requires Less(a, b) && Less(b, c)
    ensures Less(a, c)
    decreases |a|
  {
    if |a| > 0 && a[0] == b[0] && b[0] == c[0] {
      LessTransitive(a[1..], b[1..], c[1..]);
    }
  }

  lemma {:induction false} LessTotal(a: string, b: string)
    requires a != b
    ensures Less(a, b) || Less(b, a)
    decreases |a|
  {
    if |a| > 0 && |b| > 0 && a[0] == b[0] {
      LessTotal(a[1..], b[1..]);
    }
  }

  datatype Entry<V> = Entry(key: string, value: V)

  /** The QMap invariant: keys strictly ascending, hence each key at most once. */
  ghost predicate Sorted<V>(es: seq<Entry<V>>) {
    forall i, j :: 0 <= i < j < |es| ==> Less(es[i].key, es[j].key)
  }

  function Keys<V>(es: seq<Entry<V>>): (ks: seq<string>)
    ensures |ks| == |es|
    ensures forall i :: 0 <= i < |es| ==> ks[i] == es[i].key
  {
    if es == [] then [] else [es[0].key] + Keys(es[1..])
  }

  /** QMap::value as an Option: the value stored under `k`, if any. */
  function Lookup<V>(es: seq<Entry<V>>, k: string): (r: Option<V>)
    ensures r.Some? <==> exists i :: 0 <= i < |es| && es[i].key == k
    ensures r.Some? ==> exists i :: 0 <= i < |es| && es[i] == Entry(k, r.value)
  {
    if es == [] then None
    else if es[0].key == k then Some(es[0].value)
    else
      var r := Lookup(es[1..], k);
      assert r.Some? ==> exists i :: 0 <= i < |es[1..]| && es[1..][i] == Entry(k, r.value);
      r
  }

  /** QMap::insert: replaces the value of an existing key, or adds the key in order. */
  function Insert<V>(es: seq<Entry<V>>, k: string, v: V): seq<Entry<V>>
  {
    if es == [] then [Entry(k, v)]
    else if es[0].key == k then [Entry(k, v)] + es[1..]
    else if Less(k, es[0].key) then [Entry(k, v)] + es
    else [es[0]] + Insert(es[1..], k, v)
  }

  /** A bound below every stored key and below the new key stays below every key after an insert. */
  lemma {:induction false} InsertAbove<V>(es: seq<Entry<V>>, k: string, v: V, lo: string)
    requires Less(lo, k)
    requires forall i :: 0 <= i < |es| ==> Less(lo, es[i].key)
    ensures forall i :: 0 <= i < |Insert(es, k, v)| ==> Less(lo, Insert(es, k, v)[i].key)
  {
    if es != [] && es[0].key != k && !Less(k, es[0].key) {
      InsertAbove(es[1..], k, v, lo);
      assert Insert(es, k, v) == [es[0]] + Insert(es[1..], k, v);
    }
  }

  /** Inserting below the first key puts the new entry in front of a map that stays sorted. */
  lemma InsertFrontSorted<V>(es: seq<Entry<V>>, k: string, v: V)
    requires Sorted(es) && es != [] && Less(k, es[0].key)
    ensures Sorted([Entry(k, v)] + es)
  {
    var r := [Entry(k, v)] + es;
    forall i, j | 0 <= i < j < |r| ensures Less(r[i].key, r[j].key) {
      if i == 0 && j > 1 {
        LessTransitive(k, es[0].key, es[j - 1].key);
      }
    }
  }

  /** Inserting above the first key keeps that key in front of the sorted rest. */
  lemma ConsSorted<V>(e: Entry<V>, tail: seq<Entry<V>>)
    requires Sorted(tail)
    requires forall i :: 0 <= i < |tail| ==> Less(e.key, tail[i].key)
    ensures Sorted([e] + tail)
  {
    var r := [e] + tail;
    forall i, j | 0 <= i < j < |r| ensures Less(r[i].key, r[j].key) {
      if i > 0 {
        assert r[i] == tail[i - 1] && r[j] == tail[j - 1];
      }
    }
  }

  /** Inserting keeps the map sorted, so keys stay unique and ordered. */
  lemma {:induction false} InsertSorted<V>(es: seq<Entry<V>>, k: string, v: V)
    requires Sorted(es)
    ensures Sorted(Insert(es, k, v))
  {
    if es == [] {
    } else if es[0].key == k {
      var r := Insert(es, k, v);
      forall i, j | 0 <= i < j < |r| ensures Less(r[i].key, r[j].key) {
        assert r[i].key == es[i].key && r[j].key == es[j].key;
      }
    } else if Less(k, es[0].key) {
      InsertFrontSorted(es, k, v);
    } else {
      LessTotal(k, es[0].key);
      InsertSorted(es[1..], k, v);
      InsertAbove(es[1..], k, v, es[0].key);
      ConsSorted(es[0], Insert(es[1..], k, v));
    }
  }

  /** After an insert, `k` maps to `v` and every other key keeps its value. */
  lemma {:induction false} LookupInsert<V>(es: seq<Entry<V>>, k: string, v: V, x: string)
    ensures Lookup(Insert(es, k, v), x) == if x == k then Some(v) else Lookup(es, x)
  {
    if es != [] && es[0].key != k && !Less(k, es[0].key) {
      LookupInsert(es[1..], k, v, x);
    }
  }

  /** QMap::keys: exactly the stored keys, ascending and without repetition. */
  lemma KeysSorted<V>(es: seq<Entry<V>>)
    requires Sorted(es)
    ensures forall i, j :: 0 <= i < j < |Keys(es)| ==> Less(Keys(es)[i], Keys(es)[j])
    ensures forall i, j :: 0 <= i < j < |Keys(es)| ==> Keys(es)[i] != Keys(es)[j]
  {
    forall i, j | 0 <= i < j < |Keys(es)| ensures Keys(es)[i] != Keys(es)[j] {
      LessIrreflexive(Keys(es)[i]);
    }
  }
}
