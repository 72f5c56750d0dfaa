/**
 The mock-result store of `MockDataFactroy`: a two-level map from interface id
 to a table whose keys are `method#alias` strings and whose values are the
 materialized mock results. `ConcurrentHashMap` semantics are not modelled;
 the store is one sequential map.
 */
module MockStore {
  import opened Wrappers

  /** Table of one interface: `method#alias` key to mock value. */
  type Table<V> = map<string, V>

  /** `resultCache`: interface id to that interface's table. */
  type Store<V> = map<string, Table<V>>

  /** The separator `buildKey` places between method name and alias. */
  const Separator: char := '#'

  /** The cache key of a (method, alias) pair: the method name, the separator, the alias. */
  function BuildKey(methodName: string, alias: string): (key: string)
    ensures |key| == |methodName| + 1 + |alias|
    ensures key[..|methodName|] == methodName
    ensures key[|methodName|] == Separator
    ensures key[|methodName| + 1..] == alias
  {
    methodName + [Separator] + alias
  }

  /** Raw lookup of a key in an interface's table; absent when the table or the key is missing. */
  function Get<V>(s: Store<V>, interfaceId: string, key: string): (r: Option<V>)
    ensures r.Some? <==> interfaceId in s && key in s[interfaceId]
    ensures r.Some? ==> r.value == s[interfaceId][key]
  {
    if interfaceId in s && key in s[interfaceId] then Some(s[interfaceId][key]) else None
  }

  /**
   `getResultFromCache`: total, never fails. Absent exactly when the interface
   has no table or its table has no entry for the pair's key.
   */
  function GetResultFromCache<V>(s: Store<V>, interfaceId: string, methodName: string, alias: string): (r: Option<V>)
    ensures interfaceId !in s ==> r == None
    ensures interfaceId in s && BuildKey(methodName, alias) !in s[interfaceId] ==> r == None
    ensures r.Some? ==> interfaceId in s && r.value == s[interfaceId][BuildKey(methodName, alias)]
    ensures interfaceId in s && BuildKey(methodName, alias) in s[interfaceId] ==>
              r == Some(s[interfaceId][BuildKey(methodName, alias)])
  {
    Get(s, interfaceId, BuildKey(methodName, alias))
  }

  /** Dropping an interface's whole table; every other interface keeps its table. */
  function Clear<V>(s: Store<V>, interfaceId: string): (r: Store<V>)
    ensures interfaceId !in r
    ensures forall key :: Get(r, interfaceId, key) == None
    ensures r - {interfaceId} == s - {interfaceId}
  {
    s - {interfaceId}
  }

  /**
   Lazy table creation (`putToConcurrentMap` of an empty table when none is
   present): afterwards a table exists, an existing one is kept as is, and no
   lookup changes.
   */
  function EnsureTable<V>(s: Store<V>, interfaceId: string): (r: Store<V>)
    ensures interfaceId in r
    ensures interfaceId in s ==> r == s
    ensures interfaceId !in s ==> r[interfaceId] == map[]
    ensures forall key :: Get(r, interfaceId, key) == Get(s, interfaceId, key)
    ensures r - {interfaceId} == s - {interfaceId}
  {
    if interfaceId in s then s else s[interfaceId := map[]]
  }

  /** `methodCache.put` on an existing table: the key now maps to `v`, nothing else changes. */
  function Put<V>(s: Store<V>, interfaceId: string, key: string, v: V): (r: Store<V>)
    requires interfaceId in s
    ensures interfaceId in r
    ensures Get(r, interfaceId, key) == Some(v)
    ensures forall k :: k != key ==> Get(r, interfaceId, k) == Get(s, interfaceId, k)
    ensures r - {interfaceId} == s - {interfaceId}
  {
    s[interfaceId := s[interfaceId][key := v]]
  }

  /**
   `methodCache.remove` guarded by a null check on the table: the key is gone,
   no table is created or dropped, nothing else changes.
   */
  function Remove<V>(s: Store<V>, interfaceId: string, key: string): (r: Store<V>)
    ensures Get(r, interfaceId, key) == None
    ensures forall k :: k != key ==> Get(r, interfaceId, k) == Get(s, interfaceId, k)
    ensures interfaceId in r <==> interfaceId in s
    ensures r - {interfaceId} == s - {interfaceId}
  {
    if interfaceId in s then s[interfaceId := s[interfaceId] - {key}] else s
  }

  /**
   `buildKey` is injective on pairs whose method name contains no separator:
   the first separator in the key ends the method name.
   */
  lemma BuildKeyInjective(m1: string, a1: string, m2: string, a2: string)
    requires Separator !in m1 && Separator !in m2
    requires BuildKey(m1, a1) == BuildKey(m2, a2)
    ensures m1 == m2 && a1 == a2
  {
  }

  /** Two aliases of one method never share a key, whatever the method name holds. */
  lemma BuildKeyAliasesDistinct(methodName: string, a1: string, a2: string)
    requires a1 != a2
    ensures BuildKey(methodName, a1) != BuildKey(methodName, a2)
  {
  }

  /**
   Without the separator restriction `buildKey` collides: a method name that
   contains the separator shares its key with a different pair.
   */
  lemma BuildKeyCollides()
    ensures BuildKey("a#b", "c") == BuildKey("a", "b#c")
    ensures ("a#b", "c") != ("a", "b#c")
  {
  }
}
