/**
 * Utils/NamespacedMemoryCache.cs: a namespaced view of an in-memory cache, and the FluentSet,
 * GetOrRefreshAsync and WithNamespace extensions. The underlying IMemoryCache is a map from
 * string keys to entries with an absolute expiry time on an integer clock (seconds).
 */
module NamespacedCache {
  import opened Wrappers

  /** `"{AssemblyName}|{namespace}"`: the prefix every key of a namespaced cache carries. */
  function Namespace(assemblyName: string, ns: string): (r: string)
    ensures |r| == |assemblyName| + 1 + |ns| && r[|assemblyName|] == '|'
    ensures r[..|assemblyName|] == assemblyName && r[|assemblyName| + 1..] == ns
  {
    assemblyName + "|" + ns
  }

  /** A cache key: a string is used verbatim, any other key by its JSON serialization. */
  datatype CacheKey = Text(s: string) | Serialized(json: string)

  function KeyText(key: CacheKey): string {
    match key
    case Text(s) => s
    case Serialized(json) => json
  }

  /** `"{Namespace}|{key}"`: the key under which the underlying cache stores `key`. */
  function Key(namespace: string, key: CacheKey): (r: string)
    ensures |r| == |namespace| + 1 + |KeyText(key)|
    ensures r[..|namespace|] == namespace && r[|namespace|] == '|'
    ensures r[|namespace| + 1..] == KeyText(key)
  {
    namespace + "|" + KeyText(key)
  }

  /** Within one namespace, distinct string keys never share an underlying key. */
  lemma KeyInjective(namespace: string, a: string, b: string)
    requires a != b
    ensures Key(namespace, Text(a)) != Key(namespace, Text(b))
  {
    var ka, kb := Key(namespace, Text(a)), Key(namespace, Text(b));
    assert ka[|namespace| + 1..] == a && kb[|namespace| + 1..] == b;
  }

  /** Two namespaces that differ keep their keys apart when neither name contains '|'. */
  lemma NamespacesSeparate(assemblyName: string, ns1: string, ns2: string, k1: CacheKey, k2: CacheKey)
    requires ns1 != ns2
    requires forall i :: 0 <= i < |ns1| ==> ns1[i] != '|'
    requires forall i :: 0 <= i < |ns2| ==> ns2[i] != '|'
    ensures Key(Namespace(assemblyName, ns1), k1) != Key(Namespace(assemblyName, ns2), k2)
  {
    var a, b := Key(Namespace(assemblyName, ns1), k1), Key(Namespace(assemblyName, ns2), k2);
    var n := |assemblyName| + 1;
    if |ns1| < |ns2| {
      assert a[n + |ns1|] == '|' && b[n + |ns1|] == ns2[|ns1|];
    } else if |ns2| < |ns1| {
      assert b[n + |ns2|] == '|' && a[n + |ns2|] == ns1[|ns2|];
    } else {
      assert a[n..n + |ns1|] == ns1 && b[n..n + |ns2|] == ns2;
    }
  }

  /** A cached value with its absolute expiry time. */
  datatype Entry<V> = Entry(value: V, expiresAt: int)

  /** The value stored under `key` if it has not expired at `now`. */
  function Live<V>(entries: map<string, Entry<V>>, key: string, now: int): Option<V> {
    if key in entries && now < entries[key].expiresAt then Some(entries[key].value) else None
  }

  /**
   * `TryGetValue<T>`: a live entry whose value is of the requested type (`accepts`). An entry of
   * another type reads as a miss, as the typed extension does.
   */
  function TypedLookup<V>(entries: map<string, Entry<V>>, key: string, now: int, accepts: V -> bool): (r: Option<V>)
    ensures r.Some? <==> Live(entries, key, now).Some? && accepts(Live(entries, key, now).value)
    ensures r.Some? ==> r == Live(entries, key, now)
  {
    var v := Live(entries, key, now);
    if v.Some? && accepts(v.value) then v else None
  }

  /** The underlying IMemoryCache. */
  class MemoryCache<V> {
    var entries: map<string, Entry<V>>

    constructor ()
      ensures entries == map[]
    {
      entries := map[];
    }

    /** `Set(key, value, lifeSpan)`: replaces any entry under the key. */
    method Set(key: string, value: V, lifeSpan: int, now: int)
      modifies this
      ensures entries == old(entries)[key := Entry(value, now + lifeSpan)]
    {
      entries := entries[key := Entry(value, now + lifeSpan)];
    }

    method Remove(key: string)
      modifies this
      ensures entries == old(entries) - {key}
    {
      entries := entries - {key};
    }
  }

  /** NamespacedMemoryCache: forwards every operation to `inner` under the prefixed key. */
  class NamespacedMemoryCache<V> {
    const inner: MemoryCache<V>
    const namespace: string

    constructor (inner: MemoryCache<V>, assemblyName: string, ns: string)
      ensures this.inner == inner && namespace == Namespace(assemblyName, ns)
    {
      this.inner := inner;
      namespace := Namespace(assemblyName, ns);
    }

    /** Remove: deletes only the namespaced key; removing an absent key changes nothing. */
    method Remove(key: CacheKey)
      modifies inner
      ensures inner.entries == old(inner.entries) - {Key(namespace, key)}
      ensures Key(namespace, key) !in old(inner.entries) ==> inner.entries == old(inner.entries)
    {
      inner.Remove(Key(namespace, key));
    }

    function TryGetValue(key: CacheKey, now: int, accepts: V -> bool): Option<V>
      reads inner
    {
      TypedLookup(inner.entries, Key(namespace, key), now, accepts)
    }

    /** FluentSet: stores the value for `lifeSpan` seconds and returns it unchanged. */
    method FluentSet(key: CacheKey, value: V, lifeSpan: int, now: int) returns (r: V)
      modifies inner
      ensures r == value
      ensures inner.entries == old(inner.entries)[Key(namespace, key) := Entry(value, now + lifeSpan)]
    {
      inner.Set(Key(namespace, key), value, lifeSpan, now);
      r := value;
    }

    /**
     * GetOrRefreshAsync, for a generator whose outcome is `generated`: a typed hit returns the
     * stored value and does not invoke the generator; a miss invokes it once and stores and
     * returns its value; a generator that throws stores nothing, since the await precedes FluentSet.
     */
    method GetOrRefresh(key: CacheKey, generated: Result<V>, lifeSpan: int, now: int, accepts: V -> bool)
      returns (r: Result<V>, invoked: bool)
      modifies inner
      ensures invoked <==> old(TryGetValue(key, now, accepts)).None?
      ensures !invoked ==> r == Ok(old(TryGetValue(key, now, accepts)).value) && inner.entries == old(inner.entries)
      ensures invoked ==> r == generated
      ensures invoked && generated.Ok? ==>
        inner.entries == old(inner.entries)[Key(namespace, key) := Entry(generated.value, now + lifeSpan)]
      ensures invoked && generated.Err? ==> inner.entries == old(inner.entries)
    {
      var hit := TryGetValue(key, now, accepts);
      if hit.Some? {
        return Ok(hit.value), false;
      }
      invoked := true;
      match generated
      case Err(e) =>
        r := Err(e);
      case Ok(v) =>
        var stored := FluentSet(key, v, lifeSpan, now);
        r := Ok(stored);
    }
  }

  /** A cache as WithNamespace receives it: a plain cache, or one that already has a namespace. */
  datatype CacheHandle<V> = Plain(cache: MemoryCache<V>) | Namespaced(namespaced: NamespacedMemoryCache<V>)

  /** WithNamespace: refuses a cache that is already namespaced, otherwise wraps it. */
  method WithNamespace<V>(cache: CacheHandle<V>, assemblyName: string, ns: string)
    returns (r: Result<NamespacedMemoryCache<V>>)
    ensures cache.Namespaced? <==> r.Err?
    ensures r.Err? ==> r.error == Argument
    ensures r.Ok? ==> fresh(r.value) && r.value.inner == cache.cache
    ensures r.Ok? ==> r.value.namespace == Namespace(assemblyName, ns)
  {
    if cache.Namespaced? {
      return Err(Argument);
    }
    var wrapped := new NamespacedMemoryCache(cache.cache, assemblyName, ns);
    r := Ok(wrapped);
  }

  /** A hit stays a hit until the entry expires, and expires exactly at its expiry time. */
  lemma SetThenLookup<V>(entries: map<string, Entry<V>>, key: string, value: V, lifeSpan: int, now: int, later: int, accepts: V -> bool)
    requires accepts(value) && now <= later
    ensures TypedLookup(entries[key := Entry(value, now + lifeSpan)], key, later, accepts) ==
      if later < now + lifeSpan then Some(value) else None
  {
  }
}
