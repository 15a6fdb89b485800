/**
 Laws of the cache engine that relate several calls: option defaults, key
 determinism, and what a later request observes after an earlier one.
 */
module CacheLaws {
  import opened Basics
  import opened Store
  import FP = Fingerprint
  import opened CacheKey
  import opened Cache

  /** Init applied twice is Init applied once. */
  lemma InitIdempotent(o: Options)
    ensures Init(Init(o)) == Init(o)
    ensures Init(o).headers.Some? && (o.headers.Some? ==> Init(o).headers == o.headers)
  {
  }

  /** The default list has six entries, five distinct names, and User-Agent twice. */
  lemma DefaultHeadersRepeatUserAgent()
    ensures |DefaultHeaders| == 6
    ensures multiset(DefaultHeaders)["User-Agent"] == 2
    ensures DefaultHeaders[0] == DefaultHeaders[5] == "User-Agent"
    ensures |set n | n in DefaultHeaders| == 5
  {
    assert (set n | n in DefaultHeaders) == {"User-Agent", "Accept", "Accept-Encoding", "Accept-Language", "Cookie"};
  }

  /** With the default list, a request's User-Agent header enters its
      fingerprint twice: once before the four other default names and once
      after them. */
  lemma DefaultFingerprintRepeatsUserAgent(uri: string, h: FP.Header)
    ensures DefaultHeaders[1..5] == ["Accept", "Accept-Encoding", "Accept-Language", "Cookie"]
    ensures FP.Fingerprint(uri, DefaultHeaders, h)
         == uri + FP.Piece("User-Agent", h) + FP.Contribution(DefaultHeaders[1..5], h) + FP.Piece("User-Agent", h)
  {
    var d := DefaultHeaders;
    assert d == d[..5] + ["User-Agent"];
    FP.ContributionAppend(d[..5], "User-Agent", h);
    assert d[..5][1..] == d[1..5];
  }

  /** The key depends only on the request target and the configured headers:
      two requests that agree on those get the same key, whatever other
      headers they carry. */
  lemma SameConfiguredHeadersSameKey(c: Cache, md5: string -> Digest, r1: Request, r2: Request)
    requires r1.uri == r2.uri
    requires forall n :: n in HeaderNames(c.options) ==> (n in r1.header <==> n in r2.header)
    requires forall n :: n in HeaderNames(c.options) && n in r1.header ==> r1.header[n] == r2.header[n]
    ensures RequestKey(c, md5, r1) == RequestKey(c, md5, r2)
  {
    var names := HeaderNames(c.options);
    forall i | 0 <= i < |names|
      ensures names[i] in r1.header <==> names[i] in r2.header
      ensures names[i] in r1.header ==> r1.header[names[i]] == r2.header[names[i]]
    {
      assert names[i] in names;
    }
    FP.OnlyConfiguredHeadersMatter(r1.uri, names, r1.header, r2.header);
  }

  /** The zero time is never expired. */
  lemma ZeroTimeNeverExpires(now: Time)
    ensures !Expired(ZeroTime, now)
  {
  }

  /** Without a TTL, an entry stored on a miss is replayed by every later
      request with the same key, however late. */
  lemma NoTtlReplaysForever(c: Cache, md5: string -> Digest, req: Request, now: Time,
                                               down: Downstream, later: Time,
                                               req2: Request, t: Time, down2: Downstream, later2: Time)
    requires c.options.expire == 0
    requires req.httpMethod == "GET" && req2.httpMethod == "GET"
    requires RequestKey(c, md5, req) !in c.store.hash
    requires RequestKey(c, md5, req2) == RequestKey(c, md5, req)
    ensures var first := Handle(c, md5, req, now, down, later);
            && first.outcome.Missed?
            && Handle(first.cache, md5, req2, t, down2, later2)
               == Handled(Replayed(first.outcome.key, first.outcome.entry, !c.options.doNotUseAbort), first.cache)
  {
  }

  /** An expired entry is not replayed: the request runs downstream and the
      fresh response replaces the stale entry. */
  lemma ExpiredEntryIsReplaced(c: Cache, md5: string -> Digest, req: Request, now: Time,
                               down: Downstream, later: Time)
    requires req.httpMethod == "GET"
    requires RequestKey(c, md5, req) in c.store.hash
    requires Expired(c.store.hash[RequestKey(c, md5, req)].expireAt, now)
    ensures var r := Handle(c, md5, req, now, down, later);
            && r.outcome == Missed(RequestKey(c, md5, req), Entry(c.options, down, later), None)
            && r.cache.store.hash == c.store.hash[RequestKey(c, md5, req) := Entry(c.options, down, later)]
  {
  }

  /** Two requests for the same uncached key both miss; the one that stores
      first wins, the other's Set reports AlreadyExists, and exactly the
      winner's entry is left under the key. */
  lemma ConcurrentMissesKeepFirst(c: Cache, md5: string -> Digest, a: Request, b: Request, now: Time,
                                  downA: Downstream, laterA: Time, downB: Downstream, laterB: Time)
    requires a.httpMethod == "GET" && b.httpMethod == "GET"
    requires RequestKey(c, md5, a) == RequestKey(c, md5, b)
    requires RequestKey(c, md5, a) !in c.store.hash
    ensures var key := RequestKey(c, md5, a);
            var sa := Begin(c, md5, a, now);
            var sb := Begin(sa.cache, md5, b, now);
            var ca := Complete(sb.cache, key, downA, laterA);
            var cb := Complete(ca.store, key, downB, laterB);
            && sa.phase == Pending(key) && sb.phase == Pending(key)
            && ca.err.None?
            && cb.err == Some(AlreadyExists)
            && cb.store.store.hash == c.store.hash[key := Entry(c.options, downA, laterA)]
  {
  }

  /** With a TTL, an entry stored on a miss at `later` expires at `later` plus
      the TTL, and a later request with the same key at `t` replays it exactly
      when the written expiry test fails; otherwise it misses and stores the
      fresh response under the key. */
  lemma TtlReplayWindow(c: Cache, md5: string -> Digest, req: Request, now: Time,
                        down: Downstream, later: Time,
                        req2: Request, t: Time, down2: Downstream, later2: Time)
    requires c.options.expire != 0
    requires req.httpMethod == "GET" && req2.httpMethod == "GET"
    requires RequestKey(c, md5, req) !in c.store.hash
    requires RequestKey(c, md5, req2) == RequestKey(c, md5, req)
    ensures var first := Handle(c, md5, req, now, down, later);
            var e := later + c.options.expire;
            var second := Handle(first.cache, md5, req2, t, down2, later2);
            && first.outcome.Missed?
            && first.outcome.entry.expireAt == e
            && (second.outcome.Replayed? <==> !(Nanosecond(e) != 0 && e < t))
            && (!(Nanosecond(e) != 0 && e < t) ==>
                  second == Handled(Replayed(first.outcome.key, first.outcome.entry, !c.options.doNotUseAbort), first.cache))
            && (Nanosecond(e) != 0 && e < t ==>
                  && second.outcome == Missed(first.outcome.key, Entry(c.options, down2, later2), None)
                  && second.cache.store.hash[first.outcome.key] == Entry(c.options, down2, later2))
  {
    var first := Handle(c, md5, req, now, down, later);
    var e := later + c.options.expire;
    assert first.cache.options == c.options;
    assert RequestKey(first.cache, md5, req2) == first.outcome.key;
    assert first.cache.store.hash[first.outcome.key].expireAt == e;
    assert Expired(e, t) <==> Nanosecond(e) != 0 && e < t;
  }

  /** The hit/miss/expiry timeline with a one-second TTL and a store at a
      fractional second: a hit within the second, a miss (and a fresh entry)
      after it. */
  lemma OneSecondTtlTimeline(c: Cache, md5: string -> Digest, req: Request, down: Downstream, down2: Downstream)
    requires c.options.expire == NanosPerSecond
    requires req.httpMethod == "GET"
    requires RequestKey(c, md5, req) !in c.store.hash
    ensures var t0 := Handle(c, md5, req, 0, down, 1);
            var t1 := Handle(t0.cache, md5, req, NanosPerSecond / 2, down2, NanosPerSecond / 2);
            var t2 := Handle(t0.cache, md5, req, 3 * NanosPerSecond / 2, down2, 3 * NanosPerSecond / 2);
            && t0.outcome.Missed? && t0.outcome.entry.expireAt == NanosPerSecond + 1
            && t1.outcome == Replayed(t0.outcome.key, t0.outcome.entry, !c.options.doNotUseAbort)
            && t2.outcome.Missed? && t2.outcome.entry.expireAt == 5 * NanosPerSecond / 2
            && t2.cache.store.hash[t2.outcome.key] == t2.outcome.entry
  {
  }
}
