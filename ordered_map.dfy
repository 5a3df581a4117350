/** Option, used for lookups that may miss. */
module Wrappers {
  datatype Option<+T> = None | Some(value: T)
}

/**
  An insertion-ordered map, as JavaScript's `Map` keeps its entries:
  a sequence of key/value pairs with pairwise distinct keys, in the order
  in which the keys were first set.
 */
module OrderedMap {
  import opened Wrappers

  type Entries<K, V> = seq<(K, V)>

  /** No key occurs twice. */
  ghost predicate Distinct<K, V>(m: Entries<K, V>) {
    forall i, j :: 0 <= i < j < |m| ==> m[i].0 != m[j].0
  }

  /** The keys, in iteration order (`map.keys()`). */
  function Keys<K, V>(m: Entries<K, V>): seq<K> {
    seq(|m|, i requires 0 <= i < |m| => m[i].0)
  }

  /** The values, in iteration order (`Array.from(map.values())`). */
  function Values<K, V>(m: Entries<K, V>): seq<V> {
    seq(|m|, i requires 0 <= i < |m| => m[i].1)
  }

  /** The position of the first entry with key `k`, if any. */
  function IndexOf<K(==), V>(m: Entries<K, V>, k: K): (r: Option<nat>)
    ensures r.Some? ==> r.value < |m| && m[r.value].0 == k
    ensures r.Some? ==> forall j :: 0 <= j < r.value ==> m[j].0 != k
    ensures r.None? ==> forall j :: 0 <= j < |m| ==> m[j].0 != k
  {
    if m == [] then None
    else if m[0].0 == k then Some(0)
    else match IndexOf(m[1..], k)
      case None => None
      case Some(i) => Some(i + 1)
  }

  /** `map.get(k)`. */
  function Get<K(==), V>(m: Entries<K, V>, k: K): Option<V> {
    match IndexOf(m, k)
    case None => None
    case Some(i) => Some(m[i].1)
  }

  /** `map.has(k)`. */
  predicate Has<K(==), V>(m: Entries<K, V>, k: K) {
    IndexOf(m, k).Some?
  }

  /**
    `map.set(k, v)`: an existing key keeps its position and gets the new
    value; a new key is appended at the end.
   */
  function Set<K(==), V>(m: Entries<K, V>, k: K, v: V): Entries<K, V> {
    match IndexOf(m, k)
    case None => m + [(k, v)]
    case Some(i) => m[i := (k, v)]
  }

  /**
    The first entry with key `k` is the one `IndexOf` finds; this follows
    from `IndexOf`'s own contract and is stated once for the lemmas below.
   */
  lemma IndexOfFirst<K, V>(m: Entries<K, V>, k: K, i: nat)
    requires i < |m| && m[i].0 == k
    requires forall j :: 0 <= j < i ==> m[j].0 != k
    ensures IndexOf(m, k) == Some(i)
  {
  }

  lemma HasIffKey<K, V>(m: Entries<K, V>, k: K)
    ensures Has(m, k) <==> k in Keys(m)
  {
    if Has(m, k) {
      assert Keys(m)[IndexOf(m, k).value] == k;
    }
    if k in Keys(m) {
      var i :| 0 <= i < |Keys(m)| && Keys(m)[i] == k;
      assert m[i].0 == k;
    }
  }

  /** In a map without duplicate keys, an entry is found at its own position. */
  lemma GetAt<K, V>(m: Entries<K, V>, i: nat)
    requires Distinct(m) && i < |m|
    ensures IndexOf(m, m[i].0) == Some(i)
    ensures Get(m, m[i].0) == Some(m[i].1)
  {
    IndexOfFirst(m, m[i].0, i);
  }

  /** Setting never introduces a duplicate key. */
  lemma SetDistinct<K, V>(m: Entries<K, V>, k: K, v: V)
    requires Distinct(m)
    ensures Distinct(Set(m, k, v))
  {
  }

  /** Setting a key the map does not hold appends it at the end. */
  lemma SetFresh<K, V>(m: Entries<K, V>, k: K, v: V)
    requires forall j :: 0 <= j < |m| ==> m[j].0 != k
    ensures Set(m, k, v) == m + [(k, v)]
  {
  }

  /** After `set(k, v)`, `get(k)` yields `v`. */
  lemma SetGetSame<K, V>(m: Entries<K, V>, k: K, v: V)
    ensures Get(Set(m, k, v), k) == Some(v)
  {
    var r := Set(m, k, v);
    match IndexOf(m, k)
    case None =>
      IndexOfFirst(r, k, |m|);
    case Some(i) =>
      IndexOfFirst(r, k, i);
  }

  /** After `set(k, v)`, every other key maps to what it mapped to before. */
  lemma SetGetOther<K, V>(m: Entries<K, V>, k: K, v: V, k': K)
    requires k' != k
    ensures Get(Set(m, k, v), k') == Get(m, k')
  {
    var r := Set(m, k, v);
    match IndexOf(m, k')
    case None =>
      assert forall j :: 0 <= j < |r| ==> r[j].0 != k';
    case Some(i) =>
      assert r[i] == m[i];
      IndexOfFirst(r, k', i);
  }

  /**
    The key order after `set(k, v)`: unchanged when `k` was present,
    `k` appended otherwise; the size grows by one exactly for a new key.
   */
  lemma SetKeys<K, V>(m: Entries<K, V>, k: K, v: V)
    ensures Keys(Set(m, k, v)) == if Has(m, k) then Keys(m) else Keys(m) + [k]
    ensures |Set(m, k, v)| == if Has(m, k) then |m| else |m| + 1
  {
    var r := Set(m, k, v);
    if Has(m, k) {
      assert forall j :: 0 <= j < |r| ==> Keys(r)[j] == Keys(m)[j];
    } else {
      assert forall j :: 0 <= j < |m| ==> Keys(r)[j] == Keys(m)[j];
      assert Keys(r)[|m|] == k;
    }
  }

  /** In a map without duplicate keys, exactly one entry has key `k` after `set(k, v)`. */
  lemma SetUnique<K, V>(m: Entries<K, V>, k: K, v: V)
    requires Distinct(m)
    ensures exists i :: 0 <= i < |Set(m, k, v)| && Set(m, k, v)[i] == (k, v)
    ensures forall i, j ::
              (0 <= i < |Set(m, k, v)| && 0 <= j < |Set(m, k, v)| &&
               Set(m, k, v)[i].0 == k && Set(m, k, v)[j].0 == k) ==> i == j
  {
    var r := Set(m, k, v);
    SetDistinct(m, k, v);
    match IndexOf(m, k)
    case None =>
      assert r[|m|] == (k, v);
    case Some(i) =>
      assert r[i] == (k, v);
  }
}
