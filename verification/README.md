# gin-cache in Dafny

A model of the core of gin-cache, a response-caching middleware for the gin
HTTP framework, with proofs of its properties. It covers two pieces of
sequential logic:

- the **in-memory store** (`inmemory.go`): a map from key to value with
  `Get`, create-only `Set`, `Remove`, overwrite-only `Update` and `Keys`;
- the **cache engine** (`cache.go`): option defaults, the GET-only bypass rule,
  the request fingerprint, the `gin:cache:` + hex(md5) key, the lazy expiry
  check on lookup, the expiry of a fresh entry, the capturing response writer,
  and the hit/miss step of the request handler.

Every operation is a pure function from the state before to the reply and the
state after. Time is an integer count of nanoseconds since Go's zero time, and
the clock is a parameter. md5 is a parameter too: any function from strings to
16-byte digests.

| file | module | models |
|---|---|---|
| `basics.dfy` | `Basics` | `Option` (Go's nil), `byte`, `Bytes` |
| `store.dfy` | `Store` | `ErrNotFound` / `ErrAlreadyExists` and the shapes of store replies |
| `inmemory.dfy` | `InMemoryStore` | `InMemory` and its five operations, plus the laws relating them |
| `hex.dfy` | `Hex` | `hex.EncodeToString` and its inverse |
| `cachekey.dfy` | `CacheKey` | `KEY_PREFIX`, `md5String`, the cache key |
| `fingerprint.dfy` | `Fingerprint` | the string hashed into the key |
| `capture.dfy` | `Capture` | `wrappedWriter.Write` |
| `cache.dfy` | `Cache` | `Cached`, `Options`, `init`, `New`, `Cache.Get`, `Cache.Set`, the handler |
| `laws.dfy` | `CacheLaws` | what later requests observe after earlier ones |
| `expiry.dfy` | `ExpiryFinding` | the whole-second expiry defect and the corrected lookup |

The store is generic in its value type. The original stores `[]byte` and
gob-encodes entries. The engine here instantiates the store with `Cached`
itself, so the codec drops out.

The handler is split into `Cache.Begin` and `Cache.Complete`. `Begin` covers
the bypass, the key, the lookup at `now` and the replay. `Complete` covers the
`Set` after the downstream handlers ran; the expiry uses the clock read at that
point (`later`). `Cache.Handle` runs the two halves back to back. With the split
we can state the race where two requests miss on the same key at the same time.

Behaviour of the code that the model keeps as it is:

- The expiry test is `ExpireAt.Nanosecond() != 0 && ExpireAt.Before(now)`.
  It compares strictly, and it tests the nanosecond-of-second rather than
  `IsZero` (see Findings).
- The default header list has six entries: User-Agent, Accept,
  Accept-Encoding, Accept-Language, Cookie, User-Agent. A User-Agent header
  therefore enters the fingerprint twice.
- Any error from the lookup is ignored by the handler (`cch, _ :=`) and
  leads to the miss path. The error from `Set` is ignored as well.
- An empty but non-nil header list is kept by `init`. A request then hashes
  only its URI.

## Model

| member | source | states |
|---|---|---|
| InMemoryStore.NewInMemory | inmemory.go:10-12 | a new store holds no keys |
| InMemoryStore.Get | inmemory.go:14-23 | found exactly when the key is present, with the stored value; otherwise NotFound |
| InMemoryStore.Set | inmemory.go:25-35 | an absent key is created with the value and the size grows by one; a present key gives AlreadyExists and the store is unchanged; other keys are never touched |
| InMemoryStore.Remove | inmemory.go:37-47 | afterwards the key is absent; a present key is deleted and the size shrinks by one; an absent key gives NotFound and nothing changes; other keys are untouched |
| InMemoryStore.Update | inmemory.go:49-59 | the key set never changes; a present key gets the new value; an absent key gives NotFound and nothing is created; other keys are untouched |
| InMemoryStore.Keys | inmemory.go:61-70 | every stored key appears exactly once, no other string appears, and the length is the store's size |
| InMemoryStore.SetThenGet | inmemory_test.go:23-31 | what a successful Set created, Get returns |
| InMemoryStore.SetKeepsExisting | inmemory_test.go:33-34 | Set on a present key fails with AlreadyExists and Get still returns the old value |
| InMemoryStore.RemoveThenGet | inmemory_test.go:37-51 | after Remove, Get fails with NotFound |
| InMemoryStore.RemoveUndoesSet | inmemory.go:25-47 | Remove of a freshly set key gives back the original store |
| InMemoryStore.SetUndoesRemove | inmemory.go:25-47 | setting the removed value again gives back the original store, without error |
| InMemoryStore.UpdateThenGet | inmemory_test.go:54-67 | after Update, Get returns the new value on a present key and NotFound on an absent one |
| InMemoryStore.UpdateIdempotent | inmemory.go:49-59 | a repeated identical Update changes nothing |
| InMemoryStore.UpdateIsRemoveThenSet | inmemory.go:37-59 | Update of a present key equals Remove followed by Set, in reply and in store |
| InMemoryStore.SetsOnDistinctKeysCommute | inmemory.go:25-35 | Sets on different keys can be done in either order |
| Hex.EncodeToString | cache.go:195 | the encoding has two lower-case hex digits per byte |
| Hex.DecodeEncode | cache.go:195 | decoding the encoding gives back the bytes |
| Hex.EncodeInjective | cache.go:195 | two byte strings have equal encodings exactly when they are equal |
| CacheKey.Md5String | cache.go:192-196 | 32 lower-case hex digits that decode to the md5 digest of the input |
| CacheKey.Key | cache.go:150 | "gin:cache:" followed by 32 lower-case hex digits that decode to the fingerprint's digest |
| CacheKey.SameKeyIffSameDigest | cache.go:150 | two fingerprints get the same key exactly when their digests are equal |
| Fingerprint.BuildFingerprint | cache.go:142-148 | the loop computes the URI followed by name and joined values of each configured header that is present, in configured order |
| Fingerprint.Concat | cache.go:146 | joining with no separator: a single value is returned as is, the first value is a prefix, and no value is longer than the result |
| Fingerprint.ConcatSnoc | cache.go:146 | joining no values gives the empty string and joining one more value appends exactly that value, so the result is all the values joined in order |
| Fingerprint.Fingerprint | cache.go:142-148 | the string hashed for a request starts with its URI; the loop of the handler is proved equal to it |
| Fingerprint.ContributionAppend | cache.go:143-148 | one more configured name appends exactly that name's piece |
| Fingerprint.OnlyConfiguredHeadersMatter | cache.go:142-148 | requests with the same URI whose headers agree on every configured name have the same fingerprint |
| Fingerprint.AbsentHeadersContributeNothing | cache.go:144-147 | the fingerprint over the configured names equals the one over only the names present on the request |
| Fingerprint.FingerprintIsAmbiguous | cache.go:145-146 | for every URI, header name and values: the URI followed by the name and joined values, without the header, and the bare URI with the header get the same fingerprint |
| Capture.Write | cache.go:108-114 | the real writer's answer is returned unchanged; the body is appended to the buffer exactly when that answer has no error |
| Capture.WriteAllBuffersSucceeded | cache.go:108-114 | after a series of writes the buffer holds what it held plus the successful bodies, in order |
| Capture.CapturedBody | cache.go:155-162 | a fresh capturing writer ends up holding exactly the bodies of the successful `Write` calls, in order |
| Cache.Nanosecond | cache.go:73 | the nanosecond-of-second lies in [0, 1e9) and is what remains after whole seconds |
| Cache.Before | cache.go:73 | strictly earlier: no time is before itself, and of two distinct times exactly one is before the other |
| Cache.Expired | cache.go:73 | an expired entry has a non-zero expiry strictly before now; an expiry on a whole second is never expired; off the whole second, expired exactly when strictly before now |
| Cache.RequestKey | cache.go:142-150 | "gin:cache:" followed by 32 hex digits that decode to the md5 digest of the request's fingerprint over the configured headers |
| Cache.Init | cache.go:47-58 | a nil header list becomes the six-entry default list and nothing else changes; a non-nil list is kept |
| Cache.New | cache.go:116-132 | without options: empty in-memory store, no TTL, abort on, default headers; with options: the first one after init |
| Cache.Get | cache.go:66-82 | an entry is returned exactly when stored and not expired, as stored; an expired one is removed and nil, nil is returned; an absent key gives NotFound with no change |
| Cache.Set | cache.go:86-92 | the entry is created under an absent key; a present key gives AlreadyExists and the old entry stays; other keys are untouched |
| Cache.ExpireAtFor | cache.go:164-170 | the zero time without a TTL, otherwise exactly the TTL after the clock reading |
| Cache.Entry | cache.go:160-171 | the stored entry has the downstream status and header, the bodies of the successful `Write` calls as its body, and the computed expiry |
| Cache.Begin | cache.go:136-152 | non-GET bypasses without touching the cache; a GET replays exactly when its key holds an unexpired entry, with abort unless DoNotUseAbort; otherwise the key is left absent |
| Cache.Complete | cache.go:152-171 | on a miss the built entry is stored under an absent key; a key created meanwhile is kept and AlreadyExists is reported |
| Cache.Handle | cache.go:134-189 | non-GET: unchanged cache, no outcome; hit: the stored entry is replayed with the store unchanged; miss: the captured response is stored under the request's key and nothing else changes |
| CacheLaws.InitIdempotent | cache.go:47-58 | init applied twice equals init applied once |
| CacheLaws.DefaultHeadersRepeatUserAgent | cache.go:49-56 | the default list has six entries and five distinct names, with User-Agent first, last, and twice in all |
| CacheLaws.DefaultFingerprintRepeatsUserAgent | cache.go:143-148 | with default headers the User-Agent piece comes first and again last in the fingerprint |
| CacheLaws.SameConfiguredHeadersSameKey | cache.go:142-150 | requests with the same URI that agree on the configured headers get the same key |
| CacheLaws.ZeroTimeNeverExpires | cache.go:73 | an entry with the zero expiry is never expired |
| CacheLaws.NoTtlReplaysForever | cache.go:152-187 | without a TTL, an entry stored on a miss is replayed by every later request with that key, at any time |
| CacheLaws.ExpiredEntryIsReplaced | cache.go:73-75 | an expired entry is not replayed: the request misses and the fresh entry replaces it |
| CacheLaws.ConcurrentMissesKeepFirst | cache.go:152-171 | two simultaneous misses on one key both run; the first Set wins, the second gets AlreadyExists, and only the winner's entry remains |
| CacheLaws.TtlReplayWindow | cache.go:152-187 | with a TTL, an entry stored at `later` expires at `later` + TTL, and a later request replays it exactly when the written expiry test fails, otherwise misses and stores the fresh response |
| CacheLaws.OneSecondTtlTimeline | cache.go:152-187 | with a 1 s TTL stored at a fractional second: a hit half a second later, a miss and a fresh entry after the second |
| ExpiryFinding.ExpiredIsIntendedOffWholeSeconds | cache.go:73 | the written test equals "non-zero and before now", restricted to expiries off the whole second |
| ExpiryFinding.WholeSecondEntryOutlivesTtl | cache.go:73 | an entry stored at a whole second with a 1 s TTL is still replayed nine seconds after it expired |
| ExpiryFinding.GetIntended | cache.go:66-82 | with the intended test, an entry with a non-zero past expiry is removed and never returned; an entry with zero expiry is always returned |
| ExpiryFinding.GetIntendedAgreesOffWholeSeconds | cache.go:73 | the intended and written lookups agree whenever the stored expiry is zero or off the whole second |
| ExpiryFinding.WholeSecondEntryExpiresWhenIntended | cache.go:73-75 | with the intended test, the whole-second entry is removed once its expiry has passed |

## Findings

| source | as written | input that shows it | evidently intended | confidence | as-written member | corrected member |
|---|---|---|---|---|---|---|
| cache.go:73 | `cch.ExpireAt.Nanosecond() != 0 && cch.ExpireAt.Before(time.Now())` | TTL 1 s, miss stored when the clock reads a whole second (t = 1 s, ExpireAt = 2 s), lookup at t = 11 s: the entry is replayed | `!cch.ExpireAt.IsZero() && cch.ExpireAt.Before(time.Now())` | high that the test is unintended; rare in practice because clocks rarely read whole seconds; not executed | ExpiryFinding.WholeSecondEntryOutlivesTtl | ExpiryFinding.GetIntended |

The handler (`Cache.Begin`, `Cache.Handle`) keeps the test as written, so that
it describes what the code does. `ExpiryFinding.GetIntendedAgreesOffWholeSeconds`
shows the two lookups differ only on whole-second expiries.

## Left out

- InMemoryStore.Get: a miss does not return the empty byte slice that Go returns beside ErrNotFound. Every caller ignores the data when the error is set.
- InMemoryStore.Keys: the order is left open. Go ranges over a map in random order, so the order that `inmemory_test.go:85-86` expects is not a property of the code.
- Cache.New: options without a Store are not modelled. Go's `New` takes the given options wholesale, so `New(Options{Expire: d})` has a nil Store and panics at `cache.go:68` on the first GET; the model's options always hold a store. The `Cache` value that `New` builds keeps two store fields: `Cache.store` is the live store and `Cache.options.store` stays the store as configured. In Go both fields point at one store object, so they never differ.
- InMemoryStore.Set: Go keeps the caller's slice in `Set` and `Update` and hands out the stored slice itself from `Get`, so a later write through either copy changes the store. Values in the model are immutable and cannot be shared like this.
- Capture.CapturedBody: only calls to `Write` are buffered. The capturing writer embeds `gin.ResponseWriter` (`cache.go:103-106`) and overrides only `Write`, so the inherited `WriteString` goes straight to the client. A handler that uses it gets a cached body without those bytes; `Downstream.writes` holds `Write` calls only.
- Fingerprint.Fingerprint: Go strings hold bytes and md5 digests those bytes. The model's strings are sequences of Unicode characters, so a URI or header value that is not valid UTF-8 has no counterpart here. The URI is the value of `URL.RequestURI()`, which re-escapes the path; that escaping is not modelled.
- The reader/writer lock of the in-memory store. It serialises calls; here every call is one atomic function.
- gob encoding and decoding of entries, and the nil dereference when a decode fails (the decode error is ignored at `cache.go:71`). The store holds `Cached` values directly.
- md5 itself. It is a parameter: any function from strings to 16-byte digests.
- `levedb.go` is not part of this model. It wraps goleveldb, which is not available, and it does not meet the in-memory store's contract: its `Set` overwrites.
- The `Store` interface as an abstraction: the in-memory store is the only backend modelled.
- gin plumbing: installing and restoring the capturing writer, `c.Next()`, and replaying the header and body onto the response. A hit is reported as `Replayed(key, entry, aborted)`.
- The `X-Gin-Cache` diagnostic header, which formats elapsed time as a float.
- `time.Now()`: the lookup clock `now` and the post-downstream clock `later` are parameters. Go's monotonic clock reading is not modelled.
- `time.Duration` is an int64 and `Time.Add` can overflow; the model's time and durations are unbounded integers.
- `Cache.Update`, the `expires` map and the unreachable `return` at `cache.go:83`: nothing uses them.
- The per-request state machine with real concurrency is not modelled. Interleavings are stated by composing `Cache.Begin` and `Cache.Complete` by hand, as in `CacheLaws.ConcurrentMissesKeepFirst`.
