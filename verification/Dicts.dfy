/** Insertion-ordered dictionaries, as sequences of key-value pairs. */
module Dicts {
  import opened Wrappers

  type Dict<K, V> = seq<(K, V)>

  function Lookup<K(==), V>(d: Dict<K, V>, k: K): Option<V> {
    if d == [] then None else if d[0].0 == k then Some(d[0].1) else Lookup(d[1..], k)
  }

  predicate Has<K(==), V>(d: Dict<K, V>, k: K) {
    Lookup(d, k).Some?
  }

  /** Replace in place, or append. */
  function Put<K(==), V>(d: Dict<K, V>, k: K, v: V): (r: Dict<K, V>)
    ensures |r| == if Has(d, k) then |d| else |d| + 1
  {
    if d == [] then [(k, v)] else if d[0].0 == k then [(k, v)] + d[1..] else [d[0]] + Put(d[1..], k, v)
  }

  predicate DistinctKeys<K(==), V>(d: Dict<K, V>) {
    d == [] || (!Has(d[1..], d[0].0) && DistinctKeys(d[1..]))
  }

  lemma {:induction false} LookupPut<K, V>(d: Dict<K, V>, k: K, v: V, j: K)
    ensures Lookup(Put(d, k, v), j) == if j == k then Some(v) else Lookup(d, j)
  {
    if d != [] && d[0].0 != k {
      LookupPut(d[1..], k, v, j);
      assert Put(d, k, v)[1..] == Put(d[1..], k, v);
    }
  }

  lemma {:induction false} PutNew<K, V>(d: Dict<K, V>, k: K, v: V)
    requires !Has(d, k)
    ensures Put(d, k, v) == d + [(k, v)]
  {
    if d != [] {
      PutNew(d[1..], k, v);
    }
  }

  lemma {:induction false} PutDistinct<K, V>(d: Dict<K, V>, k: K, v: V)
    requires DistinctKeys(d)
    ensures DistinctKeys(Put(d, k, v))
  {
    if d != [] {
      if d[0].0 == k {
        assert Put(d, k, v)[1..] == d[1..];
      } else {
        PutDistinct(d[1..], k, v);
        LookupPut(d[1..], k, v, d[0].0);
        assert Put(d, k, v)[1..] == Put(d[1..], k, v);
      }
    }
  }

  lemma {:induction false} LookupAppend<K, V>(d: Dict<K, V>, e: (K, V), k: K)
    ensures Lookup(d + [e], k) == if Has(d, k) then Lookup(d, k) else if e.0 == k then Some(e.1) else None
  {
    if d == [] {
      assert d + [e] == [e];
    } else {
      assert (d + [e])[1..] == d[1..] + [e];
      LookupAppend(d[1..], e, k);
    }
  }

  lemma {:induction false} PutMembers<K, V>(d: Dict<K, V>, k: K, v: V)
    ensures forall e :: e in Put(d, k, v) ==> e in d || e == (k, v)
  {
    if d != [] && d[0].0 != k {
      PutMembers(d[1..], k, v);
    }
  }

  lemma {:induction false} HasMember<K, V>(d: Dict<K, V>, i: nat)
    requires i < |d|
    ensures Has(d, d[i].0)
  {
    if i > 0 {
      HasMember(d[1..], i - 1);
    }
  }

  /** A dictionary without its last entry. */
  lemma {:induction false} DistinctKeysFront<K, V>(d: Dict<K, V>)
    requires DistinctKeys(d) && d != []
    ensures DistinctKeys(d[..|d| - 1]) && !Has(d[..|d| - 1], d[|d| - 1].0)
  {
    if |d| > 1 {
      var front, last := d[..|d| - 1], d[|d| - 1];
      DistinctKeysFront(d[1..]);
      assert d[1..][..|d| - 2] == front[1..];
      LookupAppend(front[1..], last, d[0].0);
      assert d[1..] == front[1..] + [last];
    }
  }
}
