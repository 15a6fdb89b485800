/**
 The lazy-expiry test of the lookup checks the nanosecond-of-second of the
 expiry, not whether the expiry is the zero time. An entry whose expiry falls
 on a whole second therefore never expires. This module exhibits that, and
 gives the evidently intended lookup with its property proved.
 */
module ExpiryFinding {
  import opened Basics
  import opened Store
  import IM = InMemoryStore
  import opened CacheKey
  import opened Cache

  /** As written, the test is the intended one restricted to expiries off the
      whole second. */
  lemma ExpiredIsIntendedOffWholeSeconds(expireAt: Time, now: Time)
    ensures Expired(expireAt, now) <==> ExpiredIntended(expireAt, now) && expireAt % NanosPerSecond != 0
  {
  }

  /** As written: with a one-second TTL and an entry stored at a whole second,
      a request nine seconds past the expiry still replays the entry. */
  lemma WholeSecondEntryOutlivesTtl(c: Cache, md5: string -> Digest, req: Request, down: Downstream, down2: Downstream)
    requires c.options.expire == NanosPerSecond
    requires req.httpMethod == "GET"
    requires RequestKey(c, md5, req) !in c.store.hash
    ensures var first := Handle(c, md5, req, 0, down, NanosPerSecond);
            var late := Handle(first.cache, md5, req, 11 * NanosPerSecond, down2, 11 * NanosPerSecond);
            && first.outcome.Missed?
            && first.outcome.entry.expireAt == 2 * NanosPerSecond
            && Before(first.outcome.entry.expireAt, 11 * NanosPerSecond)
            && late.outcome == Replayed(first.outcome.key, first.outcome.entry, !c.options.doNotUseAbort)
  {
  }

  /** The evidently intended test: a non-zero expiry strictly before `now`. */
  predicate ExpiredIntended(expireAt: Time, now: Time)
  {
    expireAt != ZeroTime && Before(expireAt, now)
  }

  /** Cache.Get with the intended test: an entry with a non-zero expiry
      before `now` is never returned and is removed; an entry without expiry
      is always returned. */
  function GetIntended(c: Cache, key: string, now: Time): (r: Lookup)
    ensures r.cache.options == c.options
    ensures r.entry.Some? ==> key in c.store.hash && r.entry.value == c.store.hash[key] && r.err.None? && r.cache == c
    ensures r.entry.Some? ==> r.entry.value.expireAt == ZeroTime || !Before(r.entry.value.expireAt, now)
    ensures key in c.store.hash && c.store.hash[key].expireAt == ZeroTime ==> r.entry == Some(c.store.hash[key])
    ensures key in c.store.hash && !Before(c.store.hash[key].expireAt, now) ==> r.entry == Some(c.store.hash[key])
    ensures key in c.store.hash && ExpiredIntended(c.store.hash[key].expireAt, now) ==>
              && r.entry.None? && r.err.None?
              && key !in r.cache.store.hash
              && IM.AgreeExcept(c.store.hash, r.cache.store.hash, key)
    ensures key !in c.store.hash ==> r == Lookup(None, Some(NotFound), c)
  {
    match IM.Get(c.store, key)
    case Found(cch) =>
      if ExpiredIntended(cch.expireAt, now) then Lookup(None, None, c.(store := IM.Remove(c.store, key).store))
      else Lookup(Some(cch), None, c)
    case Failed(err) => Lookup(None, Some(err), c)
  }

  /** The intended lookup agrees with the written one except on expiries that
      fall on a whole second. */
  lemma GetIntendedAgreesOffWholeSeconds(c: Cache, key: string, now: Time)
    requires key in c.store.hash ==> c.store.hash[key].expireAt == ZeroTime || c.store.hash[key].expireAt % NanosPerSecond != 0
    ensures GetIntended(c, key, now) == Get(c, key, now)
  {
  }

  /** With the intended lookup, the whole-second entry above expires on time. */
  lemma WholeSecondEntryExpiresWhenIntended(c: Cache, key: string, e: Cached)
    requires key !in c.store.hash
    requires e.expireAt == 2 * NanosPerSecond
    ensures var stored := Set(c, key, e).store;
            var r := GetIntended(stored, key, 11 * NanosPerSecond);
            && r.entry.None? && r.err.None? && key !in r.cache.store.hash
  {
  }
}
