/**
 * PHP arrays with string or integer keys are ordered dictionaries: a key is
 * stored once, assigning to an existing key keeps its position, and assigning
 * to a new key appends it. This module models them as association lists.
 */
module OrderedMaps {

  datatype Option<T> = None | Some(value: T)

  type Assoc<K, V> = seq<(K, V)>

  /** The keys in their storage order (`array_keys`). */
  function Keys<K(==,!new), V>(a: Assoc<K, V>): (ks: seq<K>)
    ensures |ks| == |a|
    ensures forall i :: 0 <= i < |a| ==> ks[i] == a[i].0
  {
    if a == [] then [] else [a[0].0] + Keys(a[1..])
  }

  /** No key is stored twice. */
  predicate UniqueKeys<K(==,!new), V>(a: Assoc<K, V>)
  {
    forall i, j :: 0 <= i < j < |a| ==> a[i].0 != a[j].0
  }

  /** `$a[$k] ?? NULL`. */
  function Get<K(==,!new), V>(a: Assoc<K, V>, k: K): (r: Option<V>)
    ensures r.Some? <==> k in Keys(a)
    ensures r.Some? ==> (k, r.value) in a
  {
    if a == [] then None
    else if a[0].0 == k then Some(a[0].1)
    else Get(a[1..], k)
  }

  function GetOr<V>(o: Option<V>, default: V): V
  {
    if o.Some? then o.value else default
  }

  /** `$a[$k] = $v`: replaces in place, or appends a new key. */
  function Put<K(==,!new), V>(a: Assoc<K, V>, k: K, v: V): (r: Assoc<K, V>)
    ensures Keys(r) == if k in Keys(a) then Keys(a) else Keys(a) + [k]
  {
    if a == [] then [(k, v)]
    else if a[0].0 == k then [(k, v)] + a[1..]
    else
      var rest := Put(a[1..], k, v);
      assert Keys([a[0]] + rest) == [a[0].0] + Keys(rest);
      [a[0]] + rest
  }

  /** After `$a[$k] = $v`, key `k` holds `v` and every other key holds what it held. */
  lemma {:induction false} PutGet<K(!new), V>(a: Assoc<K, V>, k: K, v: V, j: K)
    ensures Get(Put(a, k, v), j) == if j == k then Some(v) else Get(a, j)
  {
    if a != [] && a[0].0 != k {
      PutGet(a[1..], k, v, j);
    }
  }

  /** Every pair stored after `$a[$k] = $v` is the new pair or was stored before. */
  lemma {:induction false} PutMembers<K(!new), V>(a: Assoc<K, V>, k: K, v: V)
    ensures forall p :: p in Put(a, k, v) ==> p == (k, v) || p in a
  {
    if a != [] && a[0].0 != k {
      PutMembers(a[1..], k, v);
    }
  }

  /** The stored values in key order (`array_values`, or a `foreach` over the values). */
  function Values<K, V>(a: Assoc<K, V>): (vs: seq<V>)
    ensures |vs| == |a|
    ensures forall i :: 0 <= i < |a| ==> vs[i] == a[i].1
  {
    if a == [] then [] else [a[0].1] + Values(a[1..])
  }

  lemma {:induction false} PutKeepsUnique<K(!new), V>(a: Assoc<K, V>, k: K, v: V)
    requires UniqueKeys(a)
    ensures UniqueKeys(Put(a, k, v))
  {
    var r := Put(a, k, v);
    var ks := Keys(r);
    forall i, j | 0 <= i < j < |r| ensures r[i].0 != r[j].0 {
      assert ks[i] == r[i].0 && ks[j] == r[j].0;
      if k !in Keys(a) {
        assert ks == Keys(a) + [k];
        if j == |a| {
          assert ks[i] == Keys(a)[i];
        }
      }
    }
  }

  /** A pair stored under key `k` of a list without duplicate keys is the one `Get` returns. */
  lemma {:induction false} GetOfMember<K(!new), V>(a: Assoc<K, V>, k: K, v: V)
    requires UniqueKeys(a) && (k, v) in a
    ensures Get(a, k) == Some(v)
  {
    if a[0] != (k, v) {
      assert (k, v) in a[1..];
      assert a[0].0 != k by {
        var i :| 0 <= i < |a| && a[i] == (k, v);
      }
      GetOfMember(a[1..], k, v);
    }
  }

  /** Assigning to a key that is not stored appends the pair. */
  lemma {:induction false} PutAppends<K(!new), V>(a: Assoc<K, V>, k: K, v: V)
    requires k !in Keys(a)
    ensures Put(a, k, v) == a + [(k, v)]
  {
    if a != [] {
      assert Keys(a) == [a[0].0] + Keys(a[1..]);
      assert a[0].0 != k && k !in Keys(a[1..]);
      PutAppends(a[1..], k, v);
      assert Put(a, k, v) == [a[0]] + Put(a[1..], k, v);
      assert [a[0]] + (a[1..] + [(k, v)]) == a + [(k, v)];
    }
  }

  /** `array_intersect_key($a, $b)`: the entries of `a` whose key is a key of `b`, in `a`'s order. */
  function IntersectKey<K(==,!new), V, W>(a: Assoc<K, V>, b: Assoc<K, W>): Assoc<K, V>
  {
    if a == [] then []
    else (if a[0].0 in Keys(b) then [a[0]] else []) + IntersectKey(a[1..], b)
  }

  /** The intersection keeps exactly the entries of `a` whose key `b` also has. */
  lemma {:induction false} IntersectKeyMembers<K(!new), V, W>(a: Assoc<K, V>, b: Assoc<K, W>)
    ensures forall p :: p in IntersectKey(a, b) ==> p in a && p.0 in Keys(b)
    ensures forall i :: 0 <= i < |a| && a[i].0 in Keys(b) ==> a[i] in IntersectKey(a, b)
  {
    if a != [] {
      IntersectKeyMembers(a[1..], b);
      assert forall i :: 0 < i < |a| ==> a[i] == a[1..][i - 1];
    }
  }

  /** Looking a key up in the intersection finds what `a` holds for it, when `b` has the key. */
  lemma {:induction false} IntersectKeyGet<K(!new), V, W>(a: Assoc<K, V>, b: Assoc<K, W>, k: K)
    ensures Get(IntersectKey(a, b), k) == if k in Keys(b) then Get(a, k) else None
  {
    if a != [] {
      IntersectKeyGet(a[1..], b, k);
      var rest := IntersectKey(a[1..], b);
      if a[0].0 in Keys(b) {
        var r := [a[0]] + rest;
        assert IntersectKey(a, b) == r;
        assert r[0] == a[0] && r[1..] == rest;
        if k == a[0].0 {
          assert Get(r, k) == Some(a[0].1);
        } else {
          assert Get(r, k) == Get(rest, k);
        }
      } else {
        assert IntersectKey(a, b) == rest;
      }
    }
  }

  /** Keeping only some entries of a list without duplicate keys keeps it without duplicates. */
  lemma {:induction false} IntersectKeepsUnique<K(!new), V, W>(a: Assoc<K, V>, b: Assoc<K, W>)
    requires UniqueKeys(a)
    ensures UniqueKeys(IntersectKey(a, b))
  {
    if a != [] {
      IntersectKeepsUnique(a[1..], b);
      IntersectKeyMembers(a[1..], b);
      var rest := IntersectKey(a[1..], b);
      forall p | p in rest ensures p.0 != a[0].0 {
        var j :| 0 <= j < |a[1..]| && a[1..][j] == p;
        assert a[j + 1] == p;
      }
    }
  }
}
