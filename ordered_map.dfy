/**
 * A JavaScript `Map` (or a plain object used as a string-keyed record): a
 * sequence of entries with distinct keys in insertion order. Setting an
 * existing key replaces its value where it stands; setting a new key appends.
 */
module OrderedMap {

  type Entries<K, V> = seq<(K, V)>

  predicate DistinctKeys<K(==), V>(m: Entries<K, V>) {
    forall i, j :: 0 <= i < j < |m| ==> m[i].0 != m[j].0
  }

  predicate Has<K(==), V>(m: Entries<K, V>, k: K) {
    exists i :: 0 <= i < |m| && m[i].0 == k
  }

  /** The position of key `k`. */
  function IndexOf<K(==), V>(m: Entries<K, V>, k: K): (i: nat)
    requires Has(m, k)
    ensures i < |m| && m[i].0 == k
    ensures forall j :: 0 <= j < i ==> m[j].0 != k
  {
    if m[0].0 == k then 0 else IndexOf(m[1..], k) + 1
  }

  /** `map.get(k)` for a key that is present. */
  function Get<K(==), V>(m: Entries<K, V>, k: K): V
    requires Has(m, k)
  {
    m[IndexOf(m, k)].1
  }

  /** `map.set(k, v)`. */
  function Set<K(==), V>(m: Entries<K, V>, k: K, v: V): (r: Entries<K, V>)
    ensures Has(m, k) ==> |r| == |m| && r == m[IndexOf(m, k) := (k, v)]
    ensures !Has(m, k) ==> r == m + [(k, v)]
  {
    if Has(m, k) then m[IndexOf(m, k) := (k, v)] else m + [(k, v)]
  }

  /** `Array.from(map.values())`. */
  function Values<K(==), V>(m: Entries<K, V>): (r: seq<V>)
    ensures |r| == |m|
    ensures forall i :: 0 <= i < |m| ==> r[i] == m[i].1
  {
    if m == [] then [] else [m[0].1] + Values(m[1..])
  }

  /** `Object.assign(target, source)`: every entry of `source`, in order, set on `target`. */
  function Assign<K(==), V>(target: Entries<K, V>, source: Entries<K, V>): Entries<K, V>
    decreases |source|
  {
    if source == [] then target
    else Assign(Set(target, source[0].0, source[0].1), source[1..])
  }

  /** `map.set` keeps keys distinct, finds what it stored and leaves every other key alone. */
  lemma SetFacts<K, V>(m: Entries<K, V>, k: K, v: V)
    requires DistinctKeys(m)
    ensures DistinctKeys(Set(m, k, v))
    ensures Has(Set(m, k, v), k) && Get(Set(m, k, v), k) == v
    ensures forall j :: Has(Set(m, k, v), j) <==> (j == k || Has(m, j))
    ensures forall j :: j != k && Has(m, j) ==> Get(Set(m, k, v), j) == Get(m, j)
  {
    var r := Set(m, k, v);
    assert r[if Has(m, k) then IndexOf(m, k) else |m|] == (k, v);
    forall j | j != k && Has(m, j)
      ensures Has(r, j) && Get(r, j) == Get(m, j)
    {
      var q := IndexOf(m, j);
      assert r[q] == m[q];
    }
    forall j | Has(r, j)
      ensures j == k || Has(m, j)
    {
      var p :| 0 <= p < |r| && r[p].0 == j;
      if j != k {
        assert r[p] == m[p];
      }
    }
  }

  /** Removing the first entry of a record with distinct keys leaves the lookups of the other keys alone. */
  lemma TailLookup<K, V>(s: Entries<K, V>, k: K)
    requires s != [] && DistinctKeys(s)
    ensures DistinctKeys(s[1..])
    ensures Has(s, k) <==> k == s[0].0 || Has(s[1..], k)
    ensures k == s[0].0 ==> !Has(s[1..], k) && Get(s, k) == s[0].1
    ensures k != s[0].0 && Has(s, k) ==> Get(s[1..], k) == Get(s, k)
  {
    if Has(s, k) {
      var i := IndexOf(s, k);
      if k != s[0].0 {
        assert s[1..][i - 1] == s[i];
      }
    }
    if Has(s[1..], k) {
      var p :| 0 <= p < |s[1..]| && s[1..][p].0 == k;
      assert s[p + 1] == s[1..][p];
    }
  }

  /**
   * `Object.assign` with a source record of distinct keys: the result has the
   * keys of both, a key of the source takes the source's value, and every other
   * key keeps the target's.
   */
  lemma {:induction false} AssignFacts<K, V>(target: Entries<K, V>, source: Entries<K, V>)
    requires DistinctKeys(target) && DistinctKeys(source)
    ensures DistinctKeys(Assign(target, source))
    ensures forall k :: Has(Assign(target, source), k) <==> Has(target, k) || Has(source, k)
    ensures forall k :: Has(source, k) ==> Get(Assign(target, source), k) == Get(source, k)
    ensures forall k :: Has(target, k) && !Has(source, k) ==> Get(Assign(target, source), k) == Get(target, k)
    decreases |source|
  {
    if source != [] {
      var (k0, v0) := source[0];
      var t := Set(target, k0, v0);
      SetFacts(target, k0, v0);
      TailLookup(source, k0);
      AssignFacts(t, source[1..]);
      forall k
        ensures Has(Assign(target, source), k) <==> Has(target, k) || Has(source, k)
        ensures Has(source, k) ==> Get(Assign(target, source), k) == Get(source, k)
        ensures Has(target, k) && !Has(source, k) ==> Get(Assign(target, source), k) == Get(target, k)
      {
        TailLookup(source, k);
      }
    }
  }
}
