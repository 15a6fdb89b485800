/**
 The cache engine: options and their defaults, the entry type, the lazy
 expiry check on lookup, the write of a fresh entry, and the per-request
 handler (bypass for non-GET, fingerprint and key, replay on a hit, capture
 and store on a miss). The clock is a parameter; the downstream handlers are
 represented by what they produce.
 */
module Cache {
  import opened Basics
  import opened Store
  import IM = InMemoryStore
  import FP = Fingerprint
  import opened CacheKey
  import opened Capture
  import Hex

  /** time.Time, as nanoseconds since Go's zero time (midnight UTC,
      January 1 of year 1); `time.Time{}` is 0. */
  type Time = int

  /** time.Duration, in nanoseconds. */
  type Duration = int

  const ZeroTime: Time := 0
  const NanosPerSecond: int := 1_000_000_000

  /** Time.Nanosecond: the offset of `t` within its second. */
  function Nanosecond(t: Time): (ns: int)
    ensures 0 <= ns < NanosPerSecond
    ensures (t - ns) % NanosPerSecond == 0
  {
    t % NanosPerSecond
  }

  /** Time.Before: strictly earlier, so no time is before itself and of two
      distinct times exactly one is before the other. */
  function Before(t: Time, u: Time): (b: bool)
    ensures b ==> t != u
    ensures t != u ==> (b <==> !(u < t))
  {
    t < u
  }

  /** Cached: one stored response. */
  datatype Cached = Cached(status: int, body: Bytes, header: FP.Header, expireAt: Time)

  /** The store the engine talks to, holding entries directly. */
  type EntryStore = IM.InMemory<Cached>

  /** Options; `headers` is None for Go's nil slice. */
  datatype Options = Options(store: EntryStore, expire: Duration, headers: Option<seq<string>>, doNotUseAbort: bool)

  /** The cache: the live store and the options it was built with. In the
      original both fields point at one store object; here `store` is the live
      store that every step updates, and `options.store` stays the store as
      configured, so the two part ways after the first write. */
  datatype Cache = Cache(store: EntryStore, options: Options)

  /** The header names used when none are configured; User-Agent is listed twice. */
  const DefaultHeaders: seq<string> :=
    ["User-Agent", "Accept", "Accept-Encoding", "Accept-Language", "Cookie", "User-Agent"]

  /** Options.init: a nil header list becomes the default list; a non-nil
      one, even an empty one, is kept, and nothing else changes. */
  function Init(o: Options): (r: Options)
    ensures r.headers.Some?
    ensures o.headers.Some? ==> r == o
    ensures o.headers.None? ==> r.headers == Some(DefaultHeaders) && r.(headers := None) == o
  {
    if o.headers.None? then o.(headers := Some(DefaultHeaders)) else o
  }

  /** New: the first options given, or a fresh in-memory store with no
      expiry when none are given; then Init. */
  function New(os: seq<Options>): (c: Cache)
    ensures c.options.headers.Some?
    ensures c.store == c.options.store
    ensures |os| == 0 ==> |c.store.hash| == 0 && c.options.expire == 0 && !c.options.doNotUseAbort
    ensures |os| == 0 ==> c.options.headers == Some(DefaultHeaders)
    ensures |os| > 0 ==> c.options == Init(os[0])
  {
    var opts := if |os| == 0 then Options(IM.NewInMemory(), 0, None, false) else os[0];
    var o := Init(opts);
    Cache(o.store, o)
  }

  /** The configured header names; ranging over a nil list visits nothing. */
  function HeaderNames(o: Options): seq<string>
  {
    o.headers.GetOr([])
  }

  /** The lazy expiry rule as the lookup states it: the nanosecond-of-second
      of `expireAt` is non-zero and `expireAt` lies strictly before `now`. */
  function Expired(expireAt: Time, now: Time): (b: bool)
    ensures b ==> expireAt != ZeroTime && expireAt < now
    ensures expireAt % NanosPerSecond == 0 ==> !b
    ensures expireAt % NanosPerSecond != 0 ==> (b <==> expireAt < now)
  {
    Nanosecond(expireAt) != 0 && Before(expireAt, now)
  }

  /** The reply of Cache.Get: the entry (None for Go's nil), the error, and
      the cache afterwards. */
  datatype Lookup = Lookup(entry: Option<Cached>, err: Option<Error>, cache: Cache)

  /** Cache.Get: a stored, unexpired entry is returned as stored; an expired
      one is removed and neither entry nor error is returned; a store error
      is passed on and nothing changes. */
  function Get(c: Cache, key: string, now: Time): (r: Lookup)
    ensures r.cache.options == c.options
    ensures r.entry.Some? <==> key in c.store.hash && !Expired(c.store.hash[key].expireAt, now)
    ensures r.entry.Some? ==> r.entry.value == c.store.hash[key] && r.err.None? && r.cache == c
    ensures key !in c.store.hash ==> r.err == Some(NotFound) && r.cache == c
    ensures key in c.store.hash && Expired(c.store.hash[key].expireAt, now) ==>
              r.err.None? && key !in r.cache.store.hash && IM.AgreeExcept(c.store.hash, r.cache.store.hash, key)
  {
    match IM.Get(c.store, key)
    case Found(cch) =>
      if Expired(cch.expireAt, now) then Lookup(None, None, c.(store := IM.Remove(c.store, key).store))
      else Lookup(Some(cch), None, c)
    case Failed(err) => Lookup(None, Some(err), c)
  }

  /** Cache.Set: hands the entry to the store's create-only Set. */
  function Set(c: Cache, key: string, cch: Cached): (r: Updated<Cache>)
    ensures r.store.options == c.options
    ensures key in c.store.hash ==> r.err == Some(AlreadyExists) && r.store == c
    ensures key !in c.store.hash ==> r.err.None? && key in r.store.store.hash && r.store.store.hash[key] == cch
    ensures IM.AgreeExcept(c.store.hash, r.store.store.hash, key)
  {
    var u := IM.Set(c.store, key, cch);
    Updated(u.err, c.(store := u.store))
  }

  /** The expiry of a fresh entry: never (the zero time) without a TTL,
      otherwise `expire` after `now`. */
  function ExpireAtFor(expire: Duration, now: Time): (t: Time)
    ensures expire == 0 ==> t == ZeroTime
    ensures expire != 0 ==> t - now == expire
  {
    if expire == 0 then ZeroTime else now + expire
  }

  /** What the handler reads of the request. `uri` stands for the value of
      `URL.RequestURI()`: the escaped path followed by the raw query, as Go
      builds it from the parsed URL, not the bytes received on the wire. */
  datatype Request = Request(httpMethod: string, uri: string, header: FP.Header)

  /** What the downstream handlers produce on a miss: the status, the
      response header, and every body passed to `Write` with the real writer's
      answer. */
  datatype Downstream = Downstream(status: int, header: FP.Header, writes: seq<Attempt>)

  /** The key of a request: the prefixed md5 of its fingerprint. */
  function RequestKey(c: Cache, md5: string -> Digest, req: Request): (k: string)
    ensures |k| == |KeyPrefix| + 32 && k[..|KeyPrefix|] == KeyPrefix
    ensures Hex.Decode(k[|KeyPrefix|..]) == Some(md5(FP.Fingerprint(req.uri, HeaderNames(c.options), req.header)))
  {
    Key(md5, FP.Fingerprint(req.uri, HeaderNames(c.options), req.header))
  }

  /** The entry a miss stores: the captured status, body and header, and
      the expiry computed from the clock read after the downstream ran. */
  function Entry(o: Options, down: Downstream, later: Time): (e: Cached)
    ensures e.body == Succeeded(down.writes)
    ensures e.status == down.status && e.header == down.header
    ensures e.expireAt == ExpireAtFor(o.expire, later)
  {
    CapturedBody(down.writes);
    Cached(down.status, WriteAll(Wrapped([]), down.writes).body, down.header, ExpireAtFor(o.expire, later))
  }

  /** Where the handler stands once the lookup is done. */
  datatype Phase =
    | Bypass
    | Pending(key: string)
    | Replay(key: string, entry: Cached, aborted: bool)

  datatype Started = Started(phase: Phase, cache: Cache)

  /** The first half of the handler: non-GET requests pass straight on;
      otherwise the key is computed and looked up, and a usable entry is
      replayed, aborting the chain unless DoNotUseAbort is set. */
  function Begin(c: Cache, md5: string -> Digest, req: Request, now: Time): (r: Started)
    ensures r.cache.options == c.options
    ensures req.httpMethod != "GET" <==> r.phase.Bypass?
    ensures r.phase.Bypass? ==> r.cache == c
    ensures !r.phase.Bypass? ==> r.phase.key == RequestKey(c, md5, req)
    ensures req.httpMethod == "GET" ==>
              (r.phase.Replay? <==> RequestKey(c, md5, req) in c.store.hash
                                    && !Expired(c.store.hash[RequestKey(c, md5, req)].expireAt, now))
    ensures r.phase.Replay? ==>
              && r.phase.key in c.store.hash
              && r.phase.entry == c.store.hash[r.phase.key]
              && !Expired(r.phase.entry.expireAt, now)
              && r.phase.aborted == !c.options.doNotUseAbort
              && r.cache == c
    ensures r.phase.Pending? ==>
              && r.phase.key !in r.cache.store.hash
              && IM.AgreeExcept(c.store.hash, r.cache.store.hash, r.phase.key)
  {
    if req.httpMethod != "GET" then Started(Bypass, c)
    else
      var key := RequestKey(c, md5, req);
      var found := Get(c, key, now);
      match found.entry
      case None => Started(Pending(key), found.cache)
      case Some(cch) => Started(Replay(key, cch, !c.options.doNotUseAbort), found.cache)
  }

  /** The second half on a miss: build the entry from what the downstream
      produced and Set it; a key created meanwhile by another request is
      kept and AlreadyExists is reported. */
  function Complete(c: Cache, key: string, down: Downstream, later: Time): (r: Updated<Cache>)
    ensures r.store.options == c.options
    ensures key in c.store.hash ==> r.err == Some(AlreadyExists) && r.store == c
    ensures key !in c.store.hash ==>
              && r.err.None?
              && key in r.store.store.hash
              && r.store.store.hash[key] == Entry(c.options, down, later)
    ensures IM.AgreeExcept(c.store.hash, r.store.store.hash, key)
  {
    Set(c, key, Entry(c.options, down, later))
  }

  /** How one request ended. */
  datatype Outcome =
    | Bypassed
    | Missed(key: string, entry: Cached, setErr: Option<Error>)
    | Replayed(key: string, entry: Cached, aborted: bool)

  datatype Handled = Handled(outcome: Outcome, cache: Cache)

  /** The request handler of New, with nothing interleaved: lookup at `now`,
      and on a miss the downstream runs and the entry is stored at `later`. */
  function Handle(c: Cache, md5: string -> Digest, req: Request, now: Time, down: Downstream, later: Time): (r: Handled)
    ensures r.cache.options == c.options
    ensures req.httpMethod != "GET" ==> r == Handled(Bypassed, c)
    ensures req.httpMethod == "GET" ==> !r.outcome.Bypassed? && r.outcome.key == RequestKey(c, md5, req)
    ensures req.httpMethod == "GET" ==>
              (r.outcome.Replayed? <==> RequestKey(c, md5, req) in c.store.hash
                                        && !Expired(c.store.hash[RequestKey(c, md5, req)].expireAt, now))
    ensures r.outcome.Replayed? ==>
              && r.outcome.key in c.store.hash
              && r.outcome.entry == c.store.hash[r.outcome.key]
              && !Expired(r.outcome.entry.expireAt, now)
              && r.outcome.aborted == !c.options.doNotUseAbort
              && r.cache == c
    ensures r.outcome.Missed? ==>
              && r.outcome.setErr.None?
              && r.outcome.entry.body == Succeeded(down.writes)
              && r.outcome.entry.status == down.status
              && r.outcome.entry.header == down.header
              && r.outcome.entry.expireAt == ExpireAtFor(c.options.expire, later)
              && r.outcome.key in r.cache.store.hash
              && r.cache.store.hash[r.outcome.key] == r.outcome.entry
              && IM.AgreeExcept(c.store.hash, r.cache.store.hash, r.outcome.key)
  {
    var s := Begin(c, md5, req, now);
    match s.phase
    case Bypass => Handled(Bypassed, s.cache)
    case Replay(key, cch, aborted) => Handled(Replayed(key, cch, aborted), s.cache)
    case Pending(key) =>
      var u := Complete(s.cache, key, down, later);
      Handled(Missed(key, Entry(c.options, down, later), u.err), u.store)
  }
}
