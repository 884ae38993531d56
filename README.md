# Persistence coordinator

A model of the `Persistence` coordinator of the plugin daemon
(`internal/core/persistence/persistence.go`). The coordinator stores opaque
byte blobs per (tenant, plugin, key). It holds each (tenant, plugin) pair to a
byte quota recorded in one row of a usage ledger. Reads go through a cache
whose entries hold the blob as hexadecimal text.

- `Hex.dfy`: the hexadecimal codec used for cache values. Encoding writes two
  lower-case digits per byte. Decoding accepts either case and refuses an odd
  length or a non-digit, as Go's `encoding/hex` does.
- `Utf8.dfy`: the byte length of a string in UTF-8. Go's `len(key)` counts
  bytes, so the 256 limit is on bytes, not characters.
- `Persistence.dfy`: the three collaborators as maps (`blobs`, `cache`,
  `ledger`), the cache key, and the operations. Each operation is a method
  of the class `Persistence` that changes those maps step by step. Each method
  is specified by a step function (`SaveStep`, `LoadStep`, `DeleteStep`). A
  step function gives the result and the complete new state from the old
  state, the arguments and a `Faults` record. `Faults` says which collaborator
  calls fail, so every early return can be stated.
- `PersistenceProperties.dfy`: the properties of those step functions.
- `Scenarios.dfy`: concrete runs, and the consequences of the code's ordering.

Integer width: `maxSize`, `maxStorageSize` and ledger sizes are Go `int64`.
The quota test on an existing row computes `allocatedSize + storage.Size` in
`int64`, so it wraps (`WrapInt64`). The ledger column is a signed 64-bit
integer. An increment or decrement whose result leaves that range is modelled
as a failed ledger update, which is how SQL databases treat BIGINT overflow.

Behaviour of the code that the model keeps and proves:

- The blob is written before the quota is tested (lines 36-38 before 46-77).
  A Save refused by the quota leaves the new blob in the store and the old
  cache entry in place. Load then returns the old bytes until the cache entry
  expires
  (`RejectedSaveLeavesStaleCache`). Deleting such an orphaned blob subtracts
  bytes that were never counted. The ledger can then go negative and the
  stored bytes can exceed the quota (`OrphanedBlobLetsStorageExceedQuota`).
- A Save that fails at the ledger (lines 57-59, 74-76) or at the cache delete
  (line 80) has also replaced the blob without touching the cache, so Load
  returns the old bytes until the cache entry expires
  (`FailedSaveLeavesStaleCache`). A Save that
  fails at the cache delete has already counted its bytes, so a successful
  retry counts them twice (`RetryAfterCacheErrorCountsTwice`).
- A failed ledger decrement in Delete (lines 125-133) is reported after the
  blob is gone, so the ledger keeps counting the removed bytes
  (`DeleteLedgerFailure`).
- Every successful Save adds its full size, even when it overwrites a key
  (`OverwriteIsCountedTwice`).
- If the ledger lookup fails with an error other than "not found", the quota
  test on the data alone still runs first (lines 46-49). An oversized Save is
  then reported as a quota refusal rather than a ledger error
  (`SaveLookupFailure`).
- Delete reports success when the size lookup or the blob delete fails,
  including when the blob does not exist (lines 114-122). The model keeps this
  (`DeleteSwallowsStoreFailures`). Surfacing those errors would be safer, but it
  is not what the code does.
- Cache keys join tenant, plugin and key with colons. They are injective only
  when the tenant and plugin identifiers have no colon (`CacheKeyInjective`,
  `CacheKeysCollideOnColons`). Cache coherence is stated for such identifiers.

## Model

| member | source | states |
|---|---|---|
| `Hex.Encode` | internal/core/persistence/persistence.go:101 | the cached text has two lower-case hexadecimal digits per byte, the high digit first |
| `Hex.Decode` | internal/core/persistence/persistence.go:91 | decoding succeeds exactly on even-length text made only of hexadecimal digits of either case, and yields half as many bytes as characters |
| `Hex.DecodeEncode` | internal/core/persistence/persistence.go:91-101 | decoding the cached encoding of a blob gives back exactly the blob |
| `Hex.EncodeDecode` | internal/core/persistence/persistence.go:91 | any text that decodes is the encoding of its value, up to the case of its digits |
| `Utf8.Length` | internal/core/persistence/persistence.go:28 | the key's byte length is between its character count and four times it |
| `Utf8.LengthIsCountIffAscii` | internal/core/persistence/persistence.go:28 | the byte length equals the character count exactly when the key is ASCII, so for non-ASCII keys the 256 limit is reached with fewer characters |
| `Persistence.WrapInt64` | internal/core/persistence/persistence.go:64 | the int64 sum equals the mathematical sum modulo 2^64 and equals it whenever it fits |
| `Persistence.CacheKey` | internal/core/persistence/persistence.go:19-25 | the cache key starts with `persistence:cache:`, ends with the key, and its length is the parts' lengths plus three colons |
| `Persistence.Bound` | internal/core/persistence/persistence.go:32-34 | the bound a Save meets is the smaller of the requested quota (with -1 meaning the default) and the default quota |
| `Persistence.Invalidate` | internal/core/persistence/persistence.go:79-80 | after admission, Save's result is the outcome of the cache delete: `Ok` with the entry removed when it succeeds, `CacheError` with nothing changed when it fails; blobs and ledger are untouched |
| `Persistence.SaveStep` | internal/core/persistence/persistence.go:27-81 | Save changes only the (tenant, plugin) ledger row and the written blob; the ledger moves only on admission; success means the blob is stored, the row exists and the cache entry is gone; failure leaves the cache alone |
| `Persistence.LoadStep` | internal/core/persistence/persistence.go:84-104 | Load never changes blobs or ledger; the bytes returned are the decoded cache entry or the stored blob; the cache changes only by caching the encoding of what is returned |
| `Persistence.DeleteStep` | internal/core/persistence/persistence.go:106-136 | a failed cache delete is returned as `CacheError` and changes nothing; otherwise the cache entry is gone; only the one blob can be removed; the ledger row drops only by the size of a blob that was removed |
| `Persistence.Persistence.constructor` | internal/core/persistence/persistence.go:13-17 | a coordinator starts with the given default quota and empty collaborators |
| `Persistence.Persistence.Save` | internal/core/persistence/persistence.go:27-81 | the result and the new blobs, cache and ledger are those of `SaveStep` on the old state |
| `Persistence.Persistence.Load` | internal/core/persistence/persistence.go:84-104 | the result and the new state are those of `LoadStep` on the old state |
| `Persistence.Persistence.Delete` | internal/core/persistence/persistence.go:106-136 | the result and the new state are those of `DeleteStep` on the old state |
| `PersistenceProperties.SaveRejectsLongKey` | internal/core/persistence/persistence.go:28-30 | a key longer than 256 bytes is refused with blobs, ledger and cache unchanged |
| `PersistenceProperties.SaveBlobWriteFailure` | internal/core/persistence/persistence.go:36-38 | a failed blob write is reported and changes neither ledger nor cache |
| `PersistenceProperties.SaveWritesBeforeQuota` | internal/core/persistence/persistence.go:36-48 | once the blob write succeeds the blob is stored whatever follows; a quota refusal leaves ledger and cache unchanged |
| `PersistenceProperties.SaveNewRow` | internal/core/persistence/persistence.go:46-59 | with no ledger row, Save is refused exactly when the data exceeds the default or the requested quota, whatever the ledger write does; on admission the row is created with the data's size, or a failed creation is reported with the ledger unchanged |
| `PersistenceProperties.SaveExistingRow` | internal/core/persistence/persistence.go:63-76 | with a row of size u, Save is refused with the ledger unchanged exactly when u + size exceeds the bound, whatever the ledger write does; otherwise the row becomes exactly u + size, or a failed increment is reported with the ledger unchanged |
| `PersistenceProperties.SaveCacheDeleteFailure` | internal/core/persistence/persistence.go:46-80 | past the quota test and the ledger write, Save returns `CacheError` exactly when the cache delete fails, with the blob written and the ledger already holding the new size; only a successful delete removes the cache entry |
| `PersistenceProperties.SaveLookupFailure` | internal/core/persistence/persistence.go:42-62 | a failed ledger lookup yields a quota refusal if the data alone exceeds the bound and a ledger error otherwise, with the ledger unchanged |
| `PersistenceProperties.SaveSuccessAddsSize` | internal/core/persistence/persistence.go:50-77 | a successful Save adds exactly the data's size to the (tenant, plugin) usage |
| `PersistenceProperties.LoadAfterSave` | internal/core/persistence/persistence.go:79-98 | after a successful Save, Load returns the new data, whatever the cache held before |
| `PersistenceProperties.SavesWithinQuotaAccumulate` | internal/core/persistence/persistence.go:46-77 | Saves whose cumulative size stays within the bound all succeed, and the usage grows by exactly the sum of their sizes |
| `PersistenceProperties.LoadCacheFailure` | internal/core/persistence/persistence.go:86-89 | a cache failure other than "not found" is returned, with nothing changed |
| `PersistenceProperties.LoadCacheHit` | internal/core/persistence/persistence.go:90-92 | a cache hit returns the decoding of the cached text, or a decoding error, and changes nothing |
| `PersistenceProperties.LoadCacheMiss` | internal/core/persistence/persistence.go:94-103 | a miss returns the stored blob and caches its encoding; a failed cache fill is ignored |
| `PersistenceProperties.LoadMissingBlob` | internal/core/persistence/persistence.go:94-98 | a miss on a blob the store cannot return is a store error, with nothing changed |
| `PersistenceProperties.LoadAfterFillHitsCache` | internal/core/persistence/persistence.go:86-103 | after a miss fills the cache, the next Load is a hit returning the same bytes and changing nothing |
| `PersistenceProperties.CacheKeyInjective` | internal/core/persistence/persistence.go:23-25 | for colon-free tenant and plugin identifiers, equal cache keys come from the same (tenant, plugin, key) |
| `PersistenceProperties.LoadReturnsStoredBytes` | internal/core/persistence/persistence.go:86-103 | on a coherent cache, Load returns the stored blob whether it is served from the cache or from the store |
| `PersistenceProperties.LoadPreservesCoherence` | internal/core/persistence/persistence.go:95-101 | filling the cache on a miss keeps every cache entry equal to the encoding of its blob |
| `PersistenceProperties.SavePreservesCoherence` | internal/core/persistence/persistence.go:36-80 | a successful Save keeps the cache coherent with the store |
| `PersistenceProperties.DeletePreservesCoherence` | internal/core/persistence/persistence.go:106-136 | Delete keeps the cache coherent on every path, since the cache entry goes first |
| `PersistenceProperties.DeleteCacheFailure` | internal/core/persistence/persistence.go:107-111 | a failed cache delete is returned as `CacheError` with blobs, cache and ledger unchanged |
| `PersistenceProperties.DeleteAccounting` | internal/core/persistence/persistence.go:108-135 | with every collaborator answering, Delete removes the cache entry and the blob and lowers the row by exactly the blob's size before deletion |
| `PersistenceProperties.DeleteSwallowsStoreFailures` | internal/core/persistence/persistence.go:113-122 | a failed size lookup, a missing blob or a failed blob delete is reported as success, with only the cache entry removed |
| `PersistenceProperties.DeleteLedgerFailure` | internal/core/persistence/persistence.go:124-133 | a failed decrement after the blob is removed is reported, with the blob and cache entry gone and the ledger unchanged |
| `PersistenceProperties.DeleteWithoutRow` | internal/core/persistence/persistence.go:124-135 | deleting a blob whose (tenant, plugin) has no ledger row succeeds with the blob and cache entry gone and the ledger unchanged |
| `PersistenceProperties.LoadAfterDeleteFails` | internal/core/persistence/persistence.go:106-122 | after a Delete that reached the blob store, Load reports that the blob is missing |
| `PersistenceProperties.DeleteIsIdempotent` | internal/core/persistence/persistence.go:113-117 | a second Delete of the same key succeeds and changes nothing |
| `Scenarios.QuotaScenario` | internal/core/persistence/persistence.go:27-136 | with a 1000-byte default quota: saving 100 bytes succeeds (usage 100), 950 more are refused (usage 100), deleting the 100 gives usage 0, and the 950 then succeed (usage 950) |
| `Scenarios.OrphanedBlobLetsStorageExceedQuota` | internal/core/persistence/persistence.go:36-65 | a refused Save leaves its blob; deleting it takes usage to -850, after which 1100 bytes are stored under a 1000-byte quota |
| `Scenarios.OverwriteIsCountedTwice` | internal/core/persistence/persistence.go:36-76 | saving the same key twice stores one copy but adds its size twice |
| `Scenarios.RejectedSaveLeavesStaleCache` | internal/core/persistence/persistence.go:36-91 | a Save refused by the quota replaces the blob but not the cache entry, so Load returns the old bytes and the cache is no longer coherent |
| `Scenarios.FailedSaveLeavesStaleCache` | internal/core/persistence/persistence.go:36-80 | a Save that fails at the ledger or the cache delete has replaced the blob but not the cache entry, so Load returns the old bytes |
| `Scenarios.RetryAfterCacheErrorCountsTwice` | internal/core/persistence/persistence.go:72-80 | a Save failing at the cache delete has already counted its bytes; a successful retry counts them twice |
| `Scenarios.CacheKeysCollideOnColons` | internal/core/persistence/persistence.go:23-25 | two different blobs share one cache key when an identifier contains a colon |
| `Scenarios.WrappedSumPassesQuotaTest` | internal/core/persistence/persistence.go:64-76 | a row at the int64 maximum lets one more byte pass the quota test through wrap-around; only the ledger update then fails |

## Left out

- The 5-minute TTL of cache entries and cache eviction (line 101). The cache is a map that only the three operations change.
- Concurrency. Each operation is one atomic step. The race between two first Saves that both find no ledger row (lines 42-59) is not modelled.
- Error message texts (lines 29, 48, 65). Errors are a tagged `Error` value.
- The database query builders (`db.GetOne`, `db.Create`, `db.Run` with `db.Inc`/`db.Dec`), the cache package and the `PersistenceStorage` implementations. They are maps plus failure flags. The `db`, `cache` and storage packages are not part of this model.
- The storage's own behaviour is assumed as follows. `StateSize` of a missing blob fails. `cache.Del` of a missing entry succeeds. A ledger update that matches no row succeeds and changes nothing. The ledger's range check is the BIGINT overflow rule described above.
- Go's `hex.DecodeString` returns the bytes decoded before an error along with the error (line 91). The model returns only `DecodeError`.
- Go strings may hold invalid UTF-8. Dafny strings are sequences of Unicode scalar values, so `Utf8.Length` covers well-formed text only.
- PersistenceProperties.SaveExistingRow: stated only for rows where u + size fits in int64. When the sum wraps, the quota test can pass wrongly; `Scenarios.WrappedSumPassesQuotaTest` shows that case.
