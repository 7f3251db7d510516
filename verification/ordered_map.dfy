/** An insertion-ordered association list: the JavaScript `Map<K, V>` that
    backs the in-memory store. Iteration order is the order in which keys
    were first set; setting an existing key replaces its value in place. */
module OrderedMap {
  import opened Wrappers
  import Seqs

  datatype Entry<K, V> = Entry(key: K, value: V)

  type Assoc<K, V> = seq<Entry<K, V>>

  /** `m.has(k)`. */
  predicate HasKey<K(==), V>(m: Assoc<K, V>, k: K)
  {
    exists i :: 0 <= i < |m| && m[i].key == k
  }

  /** No key occurs twice: the shape every `Map` has. */
  ghost predicate UniqueKeys<K, V>(m: Assoc<K, V>)
  {
    forall i, j :: 0 <= i < j < |m| ==> m[i].key != m[j].key
  }

  /** `m.get(k)`: the value stored under `k`, or `None` when `k` is absent. */
  function Get<K(==), V>(m: Assoc<K, V>, k: K): (r: Option<V>)
    ensures r.None? <==> !HasKey(m, k)
    ensures r.Some? ==> Entry(k, r.value) in m
    ensures UniqueKeys(m) ==> forall i :: 0 <= i < |m| && m[i].key == k ==> r == Some(m[i].value)
  {
    if |m| == 0 then None
    else if m[0].key == k then Some(m[0].value)
    else
      assert forall i :: 1 <= i < |m| ==> m[i] == m[1..][i - 1];
      Get(m[1..], k)
  }

  /** `m.set(k, v)`: an existing key keeps its position and takes the new
      value; a new key goes to the end. */
  function Set<K(==,!new), V>(m: Assoc<K, V>, k: K, v: V): (r: Assoc<K, V>)
    ensures HasKey(m, k) ==> |r| == |m| && forall i :: 0 <= i < |m| ==> r[i].key == m[i].key
    ensures !HasKey(m, k) ==> r == m + [Entry(k, v)]
  {
    if |m| == 0 then [Entry(k, v)]
    else if m[0].key == k then [Entry(k, v)] + m[1..]
    else
      var rest := Set(m[1..], k, v);
      assert forall i :: 1 <= i < |m| ==> m[i] == m[1..][i - 1];
      assert ([m[0]] + rest)[1..] == rest;
      assert !HasKey(m, k) ==> [m[0]] + rest == m + [Entry(k, v)] by {
        if !HasKey(m, k) {
          assert !HasKey(m[1..], k);
          Seqs.ConcatAssoc([m[0]], m[1..], [Entry(k, v)]);
          assert m == [m[0]] + m[1..];
        }
      }
      [m[0]] + rest
  }

  /** After setting `k` to `v`, `k` maps to `v`. */
  lemma {:induction false} SetFinds<K(!new), V>(m: Assoc<K, V>, k: K, v: V)
    ensures Get(Set(m, k, v), k) == Some(v)
  {
    if |m| > 0 && m[0].key != k {
      var r := Set(m, k, v);
      SetFinds(m[1..], k, v);
      assert r[0] == m[0] && r[1..] == Set(m[1..], k, v);
    }
  }

  /** Setting `k` leaves what every other key maps to unchanged. */
  lemma {:induction false} SetKeepsOthers<K(!new), V>(m: Assoc<K, V>, k: K, v: V, k': K)
    requires k' != k
    ensures Get(Set(m, k, v), k') == Get(m, k')
  {
    if |m| > 0 && m[0].key != k {
      var r := Set(m, k, v);
      SetKeepsOthers(m[1..], k, v, k');
      assert r[0] == m[0] && r[1..] == Set(m[1..], k, v);
    }
  }

  /** Setting a key never introduces a duplicate key. */
  lemma {:induction false} SetKeepsKeysUnique<K(!new), V>(m: Assoc<K, V>, k: K, v: V)
    requires UniqueKeys(m)
    ensures UniqueKeys(Set(m, k, v))
  {
    var r := Set(m, k, v);
    if !HasKey(m, k) {
      forall i, j | 0 <= i < j < |r| ensures r[i].key != r[j].key {
        if j == |m| {
          assert r[i] == m[i];
        } else {
          assert r[i] == m[i] && r[j] == m[j];
        }
      }
    }
  }

  /** `Array.from(m.values())`: the values in insertion order. */
  function Values<K, V>(m: Assoc<K, V>): (r: seq<V>)
    ensures |r| == |m|
    ensures forall i :: 0 <= i < |m| ==> r[i] == m[i].value
  {
    Seqs.Map(m, (e: Entry<K, V>) => e.value)
  }

  /** Appending an entry appends its value. */
  lemma ValuesAppend<K, V>(m: Assoc<K, V>, e: Entry<K, V>)
    ensures Values(m + [e]) == Values(m) + [e.value]
  {
    var a, b := Values(m + [e]), Values(m) + [e.value];
    assert |a| == |b|;
    forall i | 0 <= i < |a| ensures a[i] == b[i] {
      if i < |m| {
        assert (m + [e])[i] == m[i];
      }
    }
  }

  /** In a map with unique keys, setting a present key changes the entry
      under that key and no other. */
  lemma {:induction false} SetInPlace<K(!new), V>(m: Assoc<K, V>, k: K, v: V)
    requires UniqueKeys(m) && HasKey(m, k)
    ensures forall i :: 0 <= i < |m| ==> Set(m, k, v)[i] == if m[i].key == k then Entry(k, v) else m[i]
  {
    var r := Set(m, k, v);
    if m[0].key == k {
      forall i | 0 < i < |m| ensures m[i].key != k {
      }
    } else {
      var t := m[1..];
      assert forall i :: 1 <= i < |m| ==> m[i] == t[i - 1];
      assert UniqueKeys(t);
      assert HasKey(t, k) by {
        var j :| 0 <= j < |m| && m[j].key == k;
        assert t[j - 1].key == k;
      }
      SetInPlace(t, k, v);
      assert r == [m[0]] + Set(t, k, v);
    }
  }
}
