# Read-through cache of Discord objects

A model of the `cache` package of disdup. The `Cache` object sits in front of a
provider (the Discord API or a mock of it). It keeps four maps that it updates in place:

- channels, users and guilds, each keyed by ID;
- downloaded attachments, keyed by URL.

Lookups of channels, users and guilds are read-through. A hit returns the stored
snapshot. A miss asks the provider and stores the answer only when the provider
succeeds. Invalidation deletes one ID, or reports `Missing` when the ID is not
stored.

An attachment hit stamps the entry with the current time. A miss downloads the
URL, and each failure has its own error kind:

- the request itself fails;
- the status is not 200;
- the body cannot be read.

None of these failures is cached. `Clean` is the eviction pass over the
attachment store. First it drops as many entries as the store exceeds 1000 by,
taking the first keys the map iteration visits, whatever their age. It also
drops every other entry unused for strictly longer than five minutes.

Layout:

- `cache_types.dfy` (module `CacheTypes`): the attachment record, the error
  kinds, the outcome of an HTTP download and the two constants. Time is an
  integer count of nanoseconds since Go's zero `time.Time`.
- `eviction.dfy` (module `CacheEviction`): what `Clean` leaves behind, defined
  without the loop as `Cleaned(m, order, now)`, and the lemmas about it. Go's
  map iteration order is unspecified, so `order` is any permutation of the keys
  (`IsIterationOrder`) and every lemma holds for all of them.
- `cache.dfy` (module `Cache`): the environment, the `Cache` class and four
  client methods.
  - The environment is a `Provider` class and a `Network` class. Each answers
    from a function that may change between calls, and each keeps a ghost log of
    what it was asked.
  - The `Cache` class holds the four maps as `map` fields, and its methods
    reassign them. Its invariant `Valid()` says that failures are never cached:
    every stored channel, user or guild is a successful provider answer for that
    ID. `Clean` is a loop over the given key order, proved equal to `Cleaned`.
  - The client methods exercise the cache across several calls.

Each `Cache` method's `modifies` clause names only the one map it changes. That
frame is what guarantees that the other three maps stay unchanged.

## Model

| member | source | states |
|---|---|---|
| `Cache.Cache.constructor` | cache/cache.go:65-78 | needs a non-nil provider (the nil case panics); starts with all four maps empty, and the invariant holds |
| `Cache.Cache.Channel` | cache/cache.go:80-96 | hit: returns the stored channel; maps and provider log unchanged. Miss: asks the provider exactly once. On failure, returns that error with the map unchanged. On success, stores exactly that channel under the ID and returns it |
| `Cache.Cache.User` | cache/cache.go:98-114 | the same read-through contract for the user store |
| `Cache.Cache.Guild` | cache/cache.go:116-132 | the same read-through contract for the guild store |
| `Cache.Cache.Attachment` | cache/cache.go:134-167 | hit: only that entry's lastReference changes, to `now`; no request is made; the returned value is the updated entry. Miss: exactly one GET. A transport error gives RequestFailed, a status other than 200 gives GetFailed, a read error gives IOError; each returns the contentless placeholder and leaves the store unchanged. Success stores and returns exactly {Filename, ContentType, body, now} under the URL |
| `Cache.Cache.InvalidateChannel` | cache/cache.go:169-177 | a present ID is removed and no other key changes; an absent ID gives Missing and the map is unchanged |
| `Cache.Cache.InvalidateUser` | cache/cache.go:179-187 | the same for the user store |
| `Cache.Cache.InvalidateGuild` | cache/cache.go:189-197 | the same for the guild store |
| `Cache.Cache.Clean` | cache/cache.go:199-217 | for any iteration order, the store becomes `Cleaned(old store, order, now)`; above the threshold at most 1000 entries remain; the other maps are unchanged |
| `Cache.Provider.Channel` | cache/cache.go:60 | the provider's answer for a channel ID; records the answer in the log |
| `Cache.Provider.User` | cache/cache.go:61 | the provider's answer for a user ID; records the answer in the log |
| `Cache.Provider.Guild` | cache/cache.go:62 | the provider's answer for a guild ID; records the answer in the log |
| `Cache.Network.Get` | cache/cache.go:149-158 | the outcome of GET and the body read for a URL; records the request in the log |
| `Cache.LookupTwice` | cache/cache.go:80-96 | the first lookup returns the stored channel on a hit and the provider's answer on a miss; once it succeeds, the next one returns the same snapshot; the provider is asked at most once, and exactly once if the ID was not cached |
| `Cache.RetryAfterFailure` | cache/cache.go:80-92 | the first lookup of an uncached ID returns the provider's answer; when that fails it is not cached, so the next lookup of that ID asks the provider again |
| `Cache.InvalidateThenLookup` | cache/cache.go:169-177 | after a present ID is invalidated, the next lookup asks the provider exactly once and returns its current answer |
| `Cache.FetchTwice` | cache/cache.go:134-167 | the first download of an uncached URL succeeds exactly when the response has status 200 and a readable body, and then carries that body; after a successful download, a second call makes no request and returns the same content with a later or equal lastReference; after a failed download, the second call requests the URL again |
| `CacheEviction.IterationOrderLength` | cache/cache.go:208 | a range over the map visits exactly as many keys as the map holds |
| `CacheEviction.OverflowSize` | cache/cache.go:202-205 | the size cap drops exactly `N - 1000` keys of the store when N > 1000, and none otherwise |
| `CacheEviction.SweptStep` | cache/cache.go:208-215 | visiting key number i deletes it exactly when i < delfirst or it is stale, and touches no other key |
| `CacheEviction.SweptAll` | cache/cache.go:207-216 | before the loop the store is the original; after visiting every key it is `Cleaned` |
| `CacheEviction.CleanedAt` | cache/cache.go:208-213 | the key at position j survives if and only if j is at least delfirst and its entry is not stale; the choice is by position, not recency |
| `CacheEviction.CleanedIsSubStore` | cache/cache.go:207-216 | Clean only deletes: survivors are original keys with unchanged entries |
| `CacheEviction.CleanedIsFresh` | cache/cache.go:211 | every survivor satisfies now - lastReference <= lifetime, so an entry aged exactly the lifetime can survive |
| `CacheEviction.CleanedSize` | cache/cache.go:202-210 | at least delfirst entries go; with N > 1000, at most 1000 remain |
| `CacheEviction.CleanedBelowThreshold` | cache/cache.go:202-213 | with N <= 1000, exactly the stale entries are removed, whatever the order |
| `CacheEviction.CleanIdempotent` | cache/cache.go:201-217 | with the clock fixed, a second pass removes nothing, whatever order it visits the survivors in |

## Left out

- HTTP and I/O: `http.Get`, `io.ReadAll` and `r.Body.Close` are not modelled. A
  download is an `HttpResult` value that `Network.Get` returns: a transport
  error, or a status with a body read that succeeded or failed.
- Body leak: for a status other than 200 the body is never closed, because the
  `defer` comes after the status check. This is a resource matter outside the
  model.
- Clock: `time.Now()` and `time.Since` are the integer parameter `now`. Go
  re-reads the clock on every iteration of `Clean`; the model uses one `now` for
  the whole pass.
- Error wrapping: `fmt.Errorf` formatting of wrapped errors is not modelled.
  `RequestFailed` and `IOError` carry the underlying cause as a string.
- Cache.Cache.Channel: on a provider error, returns only the error, not the zero
  record Go returns beside it. A Go caller must ignore that value.
- Cache.Cache.User: on a provider error, returns only the error, not the zero
  record Go returns beside it.
- Cache.Cache.Guild: on a provider error, returns only the error, not the zero
  record Go returns beside it.
- Opaque records: Discord's channel, user and guild records are opaque type
  parameters. A message attachment descriptor contributes only its URL,
  filename and content type.
- Aliasing: the model's stores and results are immutable values. In Go the
  returned values are shallow copies. They share `Content` and the Discord
  records' inner slices and pointers with the stored entries. The store also
  keeps the very pointer the provider returned, which the provider may still
  hold. Writes through those shared parts, by callers or by the provider, would
  change cached entries in place; the model does not capture them.
- A provider that returns neither an object nor an error (a nil pointer with a
  nil error) would make the Go code panic. The provider's answer is a `Result`,
  so this case does not arise.
- `ErrNilProvider`: it is only ever a panic. It is the constructor's
  precondition `p != null`, not an error value.
- Concurrency: the package is documented as not safe for concurrent use, and no
  locking is modelled.
