/**
 * System.Collections.Generic.Dictionary as the gateway uses it: an association list in
 * enumeration order. Without removals .NET enumerates a dictionary in insertion order, and
 * the indexer setter overwrites an existing key in place, so `Values` order, `Add` throwing
 * on a duplicate key and `d[k] = v` keeping the old position are all captured here.
 */
module Dictionaries {
  import opened Wrappers

  type Dict<K, V> = seq<(K, V)>

  function Keys<K, V>(d: Dict<K, V>): seq<K> {
    seq(|d|, i requires 0 <= i < |d| => d[i].0)
  }

  function Values<K, V>(d: Dict<K, V>): seq<V> {
    seq(|d|, i requires 0 <= i < |d| => d[i].1)
  }

  /** No key occurs twice: the invariant every .NET dictionary keeps. */
  predicate UniqueKeys<K(==), V>(d: Dict<K, V>) {
    forall i, j :: 0 <= i < j < |d| ==> d[i].0 != d[j].0
  }

  predicate Distinct<T(==)>(s: seq<T>) {
    forall i, j :: 0 <= i < j < |s| ==> s[i] != s[j]
  }

  /** TryGetValue / GetValueOrDefault. */
  function Get<K(==), V>(d: Dict<K, V>, k: K): Option<V> {
    if d == [] then None
    else if d[0].0 == k then Some(d[0].1)
    else Get(d[1..], k)
  }

  /** Dictionary.Add: throws ArgumentException when the key is present. */
  function Add<K(==), V>(d: Dict<K, V>, k: K, v: V): Result<Dict<K, V>> {
    if k in Keys(d) then Err(DuplicateKey) else Ok(d + [(k, v)])
  }

  /** The indexer setter `d[k] = v`: overwrite in place, or append a new key. */
  function Put<K(==), V>(d: Dict<K, V>, k: K, v: V): Dict<K, V> {
    if d == [] then [(k, v)]
    else if d[0].0 == k then [(k, v)] + d[1..]
    else [d[0]] + Put(d[1..], k, v)
  }

  /** `Where(p).ToDictionary(kv => kv.Key, kv => kv.Value)`: keeps the pairs satisfying p, in order. */
  function Where<K, V>(d: Dict<K, V>, p: (K, V) -> bool): Dict<K, V> {
    if d == [] then []
    else (if p(d[0].0, d[0].1) then [d[0]] else []) + Where(d[1..], p)
  }

  /** `Add` of every pair of `ps` into `acc`, in order; the first duplicate throws. */
  function AddAll<K(==), V>(acc: Dict<K, V>, ps: Dict<K, V>): Result<Dict<K, V>>
    decreases |ps|
  {
    if ps == [] then Ok(acc)
    else match Add(acc, ps[0].0, ps[0].1)
      case Err(e) => Err(e)
      case Ok(acc') => AddAll(acc', ps[1..])
  }

  /** LINQ `ToDictionary(key, value)`. */
  function ToDictionary<T, K(==), V>(xs: seq<T>, key: T -> K, value: T -> V): Result<Dict<K, V>> {
    AddAll([], Pairs(xs, key, value))
  }

  lemma {:induction false} GetSome<K, V>(d: Dict<K, V>, k: K)
    ensures Get(d, k).Some? <==> k in Keys(d)
    ensures Get(d, k).Some? ==> (k, Get(d, k).value) in d
  {
    if d != [] {
      GetSome(d[1..], k);
      assert Keys(d) == [d[0].0] + Keys(d[1..]);
    }
  }

  lemma {:induction false} GetAt<K, V>(d: Dict<K, V>, i: int)
    requires UniqueKeys(d) && 0 <= i < |d|
    ensures Get(d, d[i].0) == Some(d[i].1)
  {
    if i > 0 {
      GetAt(d[1..], i - 1);
    }
  }

  /** A pair of a dictionary is found by its key. */
  lemma GetMember<K, V>(d: Dict<K, V>, k: K, v: V)
    requires UniqueKeys(d) && (k, v) in d
    ensures Get(d, k) == Some(v)
  {
    var i :| 0 <= i < |d| && d[i] == (k, v);
    GetAt(d, i);
  }

  /** Writing a key keeps the key order, appending the key only when it is new. */
  lemma {:induction false} PutKeys<K, V>(d: Dict<K, V>, k: K, v: V)
    ensures Keys(Put(d, k, v)) == if k in Keys(d) then Keys(d) else Keys(d) + [k]
  {
    if d != [] {
      assert Keys(d) == [d[0].0] + Keys(d[1..]);
      if d[0].0 == k {
        assert Keys(Put(d, k, v)) == [k] + Keys(d[1..]);
      } else {
        PutKeys(d[1..], k, v);
        assert Keys(Put(d, k, v)) == [d[0].0] + Keys(Put(d[1..], k, v));
      }
    }
  }

  /** Writing a key makes it map to the written value and leaves every other key alone. */
  lemma {:induction false} PutGet<K, V>(d: Dict<K, V>, k: K, v: V, k': K)
    ensures Get(Put(d, k, v), k') == if k' == k then Some(v) else Get(d, k')
  {
    if d != [] && d[0].0 != k {
      PutGet(d[1..], k, v, k');
      assert Put(d, k, v)[1..] == Put(d[1..], k, v);
    } else if d != [] {
      assert Put(d, k, v)[1..] == d[1..];
    }
  }

  /** Writing a key keeps the keys unique. */
  lemma PutUnique<K, V>(d: Dict<K, V>, k: K, v: V)
    requires UniqueKeys(d)
    ensures UniqueKeys(Put(d, k, v))
  {
    PutKeys(d, k, v);
    UniqueKeysDistinct(d);
    UniqueKeysDistinct(Put(d, k, v));
  }

  lemma UniqueKeysDistinct<K, V>(d: Dict<K, V>)
    ensures UniqueKeys(d) <==> Distinct(Keys(d))
  {
    assert forall i :: 0 <= i < |d| ==> Keys(d)[i] == d[i].0;
  }

  /** The pairs kept by Where are exactly the pairs of d satisfying p. */
  lemma {:induction false} WhereMember<K, V>(d: Dict<K, V>, p: (K, V) -> bool, kv: (K, V))
    ensures kv in Where(d, p) <==> kv in d && p(kv.0, kv.1)
  {
    if d != [] {
      WhereMember(d[1..], p, kv);
      assert d == [d[0]] + d[1..];
    }
  }

  /** Filtering never introduces a repeated key. */
  lemma {:induction false} WhereUnique<K, V>(d: Dict<K, V>, p: (K, V) -> bool)
    requires UniqueKeys(d)
    ensures UniqueKeys(Where(d, p))
  {
    if d != [] {
      WhereUnique(d[1..], p);
      var rest := Where(d[1..], p);
      if p(d[0].0, d[0].1) {
        var w := Where(d, p);
        assert w == [d[0]] + rest;
        forall j | 0 < j < |w| ensures w[0].0 != w[j].0 {
          assert w[j] == rest[j - 1];
          WhereMember(d[1..], p, w[j]);
          var m :| 0 <= m < |d[1..]| && d[1..][m] == w[j];
          assert d[1 + m] == w[j];
        }
      }
    }
  }

  /**
   * Adding a sequence of pairs succeeds exactly when no key of acc + ps repeats, and then the
   * result is the concatenation: later pairs are appended in order.
   */
  lemma {:induction false} AddAllSpec<K, V>(acc: Dict<K, V>, ps: Dict<K, V>)
    requires UniqueKeys(acc)
    ensures AddAll(acc, ps).Ok? <==> UniqueKeys(acc + ps)
    ensures AddAll(acc, ps).Ok? ==> AddAll(acc, ps).value == acc + ps
    decreases |ps|
  {
    if ps == [] {
      assert acc + ps == acc;
    } else {
      var k := ps[0].0;
      assert acc + ps == (acc + [ps[0]]) + ps[1..];
      if k in Keys(acc) {
        var i :| 0 <= i < |acc| && Keys(acc)[i] == k;
        assert (acc + ps)[i] == acc[i];
        assert (acc + ps)[|acc|].0 == k;
      } else {
        var acc' := acc + [ps[0]];
        forall i, j | 0 <= i < j < |acc'| ensures acc'[i].0 != acc'[j].0 {
          if j == |acc| {
            assert Keys(acc)[i] == acc[i].0;
          }
        }
        AddAllSpec(acc', ps[1..]);
      }
    }
  }

  /** The only exception Add and AddAll raise is the duplicate key. */
  lemma {:induction false} AddAllError<K, V>(acc: Dict<K, V>, ps: Dict<K, V>)
    ensures AddAll(acc, ps).Err? ==> AddAll(acc, ps).error == DuplicateKey
    decreases |ps|
  {
    if ps != [] && Add(acc, ps[0].0, ps[0].1).Ok? {
      AddAllError(Add(acc, ps[0].0, ps[0].1).value, ps[1..]);
    }
  }

  function Pairs<T, K, V>(xs: seq<T>, key: T -> K, value: T -> V): Dict<K, V> {
    seq(|xs|, i requires 0 <= i < |xs| => (key(xs[i]), value(xs[i])))
  }

  /** ToDictionary succeeds exactly when the keys are pairwise distinct, and keeps the input order. */
  lemma ToDictionarySpec<T, K, V>(xs: seq<T>, key: T -> K, value: T -> V)
    ensures ToDictionary(xs, key, value).Ok? <==> forall i, j :: 0 <= i < j < |xs| ==> key(xs[i]) != key(xs[j])
    ensures ToDictionary(xs, key, value).Ok? ==> ToDictionary(xs, key, value).value == Pairs(xs, key, value)
  {
    var ps := Pairs(xs, key, value);
    AddAllSpec([], ps);
    assert [] + ps == ps;
    PairsUnique(xs, key, value);
  }

  lemma PairsUnique<T, K, V>(xs: seq<T>, key: T -> K, value: T -> V)
    ensures UniqueKeys(Pairs(xs, key, value)) <==> forall i, j :: 0 <= i < j < |xs| ==> key(xs[i]) != key(xs[j])
  {
    var ps := Pairs(xs, key, value);
    assert forall i :: 0 <= i < |xs| ==> ps[i].0 == key(xs[i]);
  }

  lemma PairsView<T, K, V>(xs: seq<T>, key: T -> K, value: T -> V)
    ensures |Pairs(xs, key, value)| == |xs|
    ensures forall i :: 0 <= i < |xs| ==> Keys(Pairs(xs, key, value))[i] == key(xs[i])
    ensures forall i :: 0 <= i < |xs| ==> Values(Pairs(xs, key, value))[i] == value(xs[i])
  {
  }

  /** Adding `ps + qs` is adding `ps` and then `qs`; the first duplicate stops both. */
  lemma {:induction false} AddAllAppend<K, V>(acc: Dict<K, V>, ps: Dict<K, V>, qs: Dict<K, V>)
    ensures AddAll(acc, ps + qs) ==
      match AddAll(acc, ps)
      case Err(e) => Err(e)
      case Ok(a) => AddAll(a, qs)
    decreases |ps|
  {
    if ps != [] {
      assert (ps + qs)[0] == ps[0] && (ps + qs)[1..] == ps[1..] + qs;
      match Add(acc, ps[0].0, ps[0].1)
      case Err(_) =>
      case Ok(a) => AddAllAppend(a, ps[1..], qs);
    } else {
      assert ps + qs == qs;
    }
  }

  /** A sequence of indexer writes `d[k] = v`, one per pair, in order. */
  function PutAll<K(==), V>(d: Dict<K, V>, ps: Dict<K, V>): Dict<K, V>
    decreases |ps|
  {
    if ps == [] then d
    else Put(PutAll(d, ps[..|ps| - 1]), ps[|ps| - 1].0, ps[|ps| - 1].1)
  }

  /** The value of the last pair of `ps` with key k. */
  function GetLast<K(==), V>(ps: Dict<K, V>, k: K): Option<V>
    decreases |ps|
  {
    if ps == [] then None
    else if ps[|ps| - 1].0 == k then Some(ps[|ps| - 1].1)
    else GetLast(ps[..|ps| - 1], k)
  }

  /** After a sequence of writes, a key maps to the last value written to it: later writes win. */
  lemma {:induction false} PutAllGet<K, V>(d: Dict<K, V>, ps: Dict<K, V>, k: K)
    ensures Get(PutAll(d, ps), k) == if GetLast(ps, k).Some? then GetLast(ps, k) else Get(d, k)
    decreases |ps|
  {
    if ps != [] {
      var n := |ps| - 1;
      PutAllGet(d, ps[..n], k);
      PutGet(PutAll(d, ps[..n]), ps[n].0, ps[n].1, k);
    }
  }

  /** A sequence of writes keeps the keys unique and never drops a key. */
  lemma {:induction false} PutAllUnique<K, V>(d: Dict<K, V>, ps: Dict<K, V>)
    requires UniqueKeys(d)
    ensures UniqueKeys(PutAll(d, ps)) && |PutAll(d, ps)| >= |d|
    decreases |ps|
  {
    if ps != [] {
      var n := |ps| - 1;
      var e := PutAll(d, ps[..n]);
      PutAllUnique(d, ps[..n]);
      PutUnique(e, ps[n].0, ps[n].1);
      PutKeys(e, ps[n].0, ps[n].1);
      assert |Put(e, ps[n].0, ps[n].1)| == |Keys(Put(e, ps[n].0, ps[n].1))|;
    }
  }

  /** The keys after a sequence of writes are the old keys and the written ones. */
  lemma {:induction false} PutAllMember<K, V>(d: Dict<K, V>, ps: Dict<K, V>, k: K)
    ensures k in Keys(PutAll(d, ps)) <==> k in Keys(d) || k in Keys(ps)
    decreases |ps|
  {
    if ps != [] {
      var n := |ps| - 1;
      PutAllMember(d, ps[..n], k);
      PutKeys(PutAll(d, ps[..n]), ps[n].0, ps[n].1);
      assert Keys(ps) == Keys(ps[..n]) + [ps[n].0];
    }
  }

  /** GetLast finds a key exactly when some pair carries it. */
  lemma {:induction false} GetLastSome<K, V>(ps: Dict<K, V>, k: K)
    ensures GetLast(ps, k).Some? <==> k in Keys(ps)
    decreases |ps|
  {
    if ps != [] {
      var n := |ps| - 1;
      GetLastSome(ps[..n], k);
      assert Keys(ps) == Keys(ps[..n]) + [ps[n].0];
    }
  }

  /** Writing `ps + qs` is writing `ps`, then `qs`. */
  lemma {:induction false} PutAllAppend<K, V>(d: Dict<K, V>, ps: Dict<K, V>, qs: Dict<K, V>)
    ensures PutAll(d, ps + qs) == PutAll(PutAll(d, ps), qs)
    decreases |qs|
  {
    if qs == [] {
      assert ps + qs == ps;
    } else {
      var n := |qs| - 1;
      assert (ps + qs)[..|ps + qs| - 1] == ps + qs[..n];
      PutAllAppend(d, ps, qs[..n]);
    }
  }
}
