/**
 The in-memory store: a map from key to value with create-only `Set`,
 overwrite-only `Update`, `Remove`, `Get` and `Keys`. Every operation is a
 pure function from the store before to the reply and the store after; the
 reader/writer lock of the original serialises calls and so disappears here.
 The store is generic in the value type: the original stores `[]byte`, and
 the cache engine instantiates it with the cache entry itself.
 */
module InMemoryStore {
  import opened Basics
  import opened Store

  datatype InMemory<V> = InMemory(hash: map<string, V>)

  /** `a` and `b` hold the same keys, with the same values, except perhaps `key`. */
  ghost predicate AgreeExcept<V>(a: map<string, V>, b: map<string, V>, key: string)
  {
    forall k :: k != key ==> (k in a <==> k in b) && (k in a ==> a[k] == b[k])
  }

  /** A fresh, empty store. */
  function NewInMemory<V>(): (s: InMemory<V>)
    ensures |s.hash| == 0
    ensures forall k :: k !in s.hash
  {
    InMemory(map[])
  }

  /** The stored value for `key`, or NotFound; the store is not touched. */
  function Get<V>(s: InMemory<V>, key: string): (r: Fetched<V>)
    ensures r.Found? <==> key in s.hash
    ensures r.Found? ==> r.value == s.hash[key]
    ensures r.Failed? ==> r.err == NotFound
  {
    if key in s.hash then Found(s.hash[key]) else Failed(NotFound)
  }

  /** Creates `key -> value`; a present key is refused with AlreadyExists. */
  function Set<V>(s: InMemory<V>, key: string, value: V): (r: Updated<InMemory<V>>)
    ensures key in s.hash ==> r.err == Some(AlreadyExists) && r.store == s
    ensures key !in s.hash ==> r.err.None?
    ensures key !in s.hash ==> key in r.store.hash && r.store.hash[key] == value
    ensures key !in s.hash ==> |r.store.hash| == |s.hash| + 1
    ensures AgreeExcept(s.hash, r.store.hash, key)
  {
    if key in s.hash then Updated(Some(AlreadyExists), s)
    else Updated(None, InMemory(s.hash[key := value]))
  }

  /** Deletes `key`; an absent key is reported with NotFound. */
  function Remove<V>(s: InMemory<V>, key: string): (r: Updated<InMemory<V>>)
    ensures key !in r.store.hash
    ensures key in s.hash ==> r.err.None? && |r.store.hash| == |s.hash| - 1
    ensures key !in s.hash ==> r.err == Some(NotFound) && r.store == s
    ensures AgreeExcept(s.hash, r.store.hash, key)
  {
    if key in s.hash then
      var m := s.hash - {key};
      assert s.hash.Keys == m.Keys + {key};
      Updated(None, InMemory(m))
    else Updated(Some(NotFound), s)
  }

  /** Overwrites the value of a present `key`; an absent key is reported with
      NotFound and nothing is created. */
  function Update<V>(s: InMemory<V>, key: string, value: V): (r: Updated<InMemory<V>>)
    ensures r.store.hash.Keys == s.hash.Keys
    ensures key in s.hash ==> r.err.None? && r.store.hash[key] == value
    ensures key !in s.hash ==> r.err == Some(NotFound) && r.store == s
    ensures AgreeExcept(s.hash, r.store.hash, key)
  {
    if key in s.hash then Updated(None, InMemory(s.hash[key := value]))
    else Updated(Some(NotFound), s)
  }

  /** Every key of the store exactly once, in an order the model leaves open
      (the original ranges over a Go map, whose order is randomised). */
  method Keys<V>(s: InMemory<V>) returns (ks: seq<string>)
    ensures |ks| == |s.hash|
    ensures forall k :: k in ks <==> k in s.hash
    ensures forall i, j :: 0 <= i < j < |ks| ==> ks[i] != ks[j]
  {
    ks := [];
    var rest := s.hash.Keys;
    while rest != {}
      invariant rest <= s.hash.Keys
      invariant forall k :: k in ks ==> k in s.hash && k !in rest
      invariant forall k :: k in s.hash ==> k in ks || k in rest
      invariant forall i, j :: 0 <= i < j < |ks| ==> ks[i] != ks[j]
      invariant |ks| + |rest| == |s.hash|
      decreases |rest|
    {
      var k :| k in rest;
      ks := ks + [k];
      rest := rest - {k};
    }
  }

  // ----- laws relating the operations -----

  /** What `Set` created, `Get` returns. */
  lemma SetThenGet<V>(s: InMemory<V>, key: string, value: V)
    requires key !in s.hash
    ensures Get(Set(s, key, value).store, key) == Found(value)
  {
  }

  /** `Set` never overwrites: on a present key, `Get` still returns the old
      value whatever was offered. */
  lemma SetKeepsExisting<V>(s: InMemory<V>, key: string, value: V)
    requires key in s.hash
    ensures Set(s, key, value).err == Some(AlreadyExists)
    ensures Get(Set(s, key, value).store, key) == Get(s, key)
  {
  }

  /** After `Remove`, whether or not the key was present, `Get` fails with NotFound. */
  lemma RemoveThenGet<V>(s: InMemory<V>, key: string)
    ensures Get(Remove(s, key).store, key) == Failed(NotFound)
  {
  }

  /** `Remove` undoes a successful `Set`. */
  lemma RemoveUndoesSet<V>(s: InMemory<V>, key: string, value: V)
    requires key !in s.hash
    ensures Remove(Set(s, key, value).store, key).store == s
  {
  }

  /** `Set` of the removed value undoes a successful `Remove`. */
  lemma SetUndoesRemove<V>(s: InMemory<V>, key: string)
    requires key in s.hash
    ensures Set(Remove(s, key).store, key, s.hash[key]) == Updated(None, s)
  {
    var m := Remove(s, key).store.hash;
    assert m[key := s.hash[key]] == s.hash;
  }

  /** What `Update` wrote, `Get` returns; and `Update` never creates a key. */
  lemma UpdateThenGet<V>(s: InMemory<V>, key: string, value: V)
    ensures key in s.hash ==> Get(Update(s, key, value).store, key) == Found(value)
    ensures key !in s.hash ==> Get(Update(s, key, value).store, key) == Failed(NotFound)
  {
  }

  /** A second identical `Update` changes nothing. */
  lemma UpdateIdempotent<V>(s: InMemory<V>, key: string, value: V)
    ensures var once := Update(s, key, value).store;
            Update(once, key, value).store == once
  {
  }

  /** `Update` of a present key is `Remove` followed by `Set`. */
  lemma UpdateIsRemoveThenSet<V>(s: InMemory<V>, key: string, value: V)
    requires key in s.hash
    ensures Update(s, key, value) == Set(Remove(s, key).store, key, value)
  {
    assert (s.hash - {key})[key := value] == s.hash[key := value];
  }

  /** Operations on different keys commute. */
  lemma SetsOnDistinctKeysCommute<V>(s: InMemory<V>, k1: string, v1: V, k2: string, v2: V)
    requires k1 != k2
    ensures Set(Set(s, k1, v1).store, k2, v2).store == Set(Set(s, k2, v2).store, k1, v1).store
  {
    if k1 !in s.hash && k2 !in s.hash {
      assert s.hash[k1 := v1][k2 := v2] == s.hash[k2 := v2][k1 := v1];
    }
  }
}
