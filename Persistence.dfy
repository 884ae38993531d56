/**
  The persistence coordinator: opaque byte blobs stored per (tenant, plugin,
  key), a byte quota per (tenant, plugin) kept in a usage-ledger row, and a
  cache-aside read path whose entries hold the hexadecimal text of a blob.

  The three collaborators (blob store, cache, ledger table) are maps. Whether a
  collaborator call fails is an input, a Faults record, so that every early
  return of the coordinator can be stated. Each operation is a method of the
  class Persistence and is specified by a step function over a State value;
  the lemmas in PersistenceProperties are about those step functions.
  The step function is the specification; the method body is the same
  operation written step by step against the class's fields, and its
  postcondition proves that it agrees with the step function.
 */
module Persistence {
  import opened Hex
  import Utf8

  const Int64Min: int := -0x8000_0000_0000_0000
  const Int64Max: int := 0x7FFF_FFFF_FFFF_FFFF

  predicate InInt64(x: int) {
    Int64Min <= x <= Int64Max
  }

  type int64 = x: int | Int64Min <= x <= Int64Max

  /** Two's-complement wrap-around of Go's int64 arithmetic. */
  function WrapInt64(x: int): (r: int64)
    ensures (x - r) % 0x1_0000_0000_0000_0000 == 0
    ensures InInt64(x) ==> r == x
  {
    (x - Int64Min) % 0x1_0000_0000_0000_0000 + Int64Min
  }

  /** The longest key, in bytes, that Save accepts. */
  const MaxKeyLength: nat := 256

  const CacheKeyPrefix: string := "persistence:cache"

  /** A blob's address: (tenant, plugin, key). */
  type BlobId = (string, string, string)

  /** A ledger row's address: (tenant, plugin). */
  type RowId = (string, string)

  datatype Error =
    | InvalidKey      // key longer than MaxKeyLength bytes
    | QuotaExceeded   // admission refused by the quota rule
    | BlobStoreError  // the blob store failed, or has no such blob
    | CacheError      // the cache failed with something other than "not found"
    | LedgerError     // the ledger table failed
    | DecodeError     // a cached value is not hexadecimal text

  datatype Result<T> = Ok(value: T) | Err(error: Error)

  /** Which collaborator calls fail during one operation. */
  datatype Faults = Faults(
    blobSave: bool, blobLoad: bool, blobSize: bool, blobDelete: bool,
    cacheGet: bool, cacheSet: bool, cacheDel: bool,
    ledgerGet: bool, ledgerWrite: bool)

  const NoFaults := Faults(false, false, false, false, false, false, false, false, false)

  /** The contents of the three collaborators. */
  datatype State = State(
    blobs: map<BlobId, seq<byte>>,
    cache: map<string, string>,
    ledger: map<RowId, int64>)

  /** What an operation returns, and the state it leaves behind. */
  datatype Step<T> = Step(result: T, post: State)

  /** The cache key of a blob: the prefix, tenant, plugin and key joined by colons. */
  function CacheKey(tenant: string, plugin: string, key: string): (r: string)
    ensures |r| == |CacheKeyPrefix| + |tenant| + |plugin| + |key| + 3
    ensures r[..|CacheKeyPrefix| + 1] == CacheKeyPrefix + ":"
    ensures r[|r| - |key|..] == key
  {
    CacheKeyPrefix + ":" + tenant + ":" + plugin + ":" + key
  }

  /** Tenant and plugin identifiers without a colon, which keep cache keys apart. */
  predicate IdsWellFormed(tenant: string, plugin: string) {
    ':' !in tenant && ':' !in plugin
  }

  /** The quota a caller asks for, with -1 standing for the process-wide default. */
  function RequestedLimit(maxStorageSize: int64, maxSize: int64): int64 {
    if maxSize == -1 then maxStorageSize else maxSize
  }

  /** The bound a Save is held to: the smaller of the requested and the default quota. */
  function Bound(maxStorageSize: int64, maxSize: int64): (b: int64)
    ensures b <= maxStorageSize && b <= RequestedLimit(maxStorageSize, maxSize)
    ensures b == maxStorageSize || b == RequestedLimit(maxStorageSize, maxSize)
  {
    var limit := RequestedLimit(maxStorageSize, maxSize);
    if limit < maxStorageSize then limit else maxStorageSize
  }

  /** Bytes the ledger accounts to (tenant, plugin); a missing row counts as zero. */
  function Usage(s: State, tenant: string, plugin: string): int {
    if (tenant, plugin) in s.ledger then s.ledger[(tenant, plugin)] else 0
  }

  /** The last step of a Save that got past the quota: invalidate the cache entry. */
  function Invalidate(s: State, ck: string, f: Faults): (r: Step<Result<()>>)
    ensures r.post.blobs == s.blobs && r.post.ledger == s.ledger
    ensures r.result.Ok? ==> ck !in r.post.cache
    ensures r.post.cache == s.cache || r.post.cache == s.cache - {ck}
    // the outcome of the cache delete is the outcome of Save
    ensures r.result.Ok? <==> !f.cacheDel
    ensures !r.result.Ok? ==> r == Step(Err(CacheError), s)
  {
    if f.cacheDel then Step(Err(CacheError), s)
    else Step(Ok(()), s.(cache := s.cache - {ck}))
  }

  /** Save: key check, quota resolution, blob write, quota admission and ledger update, cache invalidation. */
  function SaveStep(maxStorageSize: int64, s: State, tenant: string, plugin: string, maxSize: int64,
                    key: string, data: seq<byte>, f: Faults): (r: Step<Result<()>>)
    requires |data| <= Int64Max
    // only the ledger row of (tenant, plugin) can change
    ensures r.post.ledger - {(tenant, plugin)} == s.ledger - {(tenant, plugin)}
    // the only blob that can change is the one written
    ensures r.post.blobs == s.blobs || r.post.blobs == s.blobs[(tenant, plugin, key) := data]
    // the ledger moves only when the write was admitted
    ensures r.post.ledger != s.ledger ==>
              r.result.Ok? || r.result == Err(CacheError)
    // success means the blob is stored, its row exists and its cache entry is gone
    ensures r.result.Ok? ==>
              && r.post.blobs == s.blobs[(tenant, plugin, key) := data]
              && (tenant, plugin) in r.post.ledger
              && r.post.cache == s.cache - {CacheKey(tenant, plugin, key)}
    ensures !r.result.Ok? ==> r.post.cache == s.cache
  {
    if Utf8.Length(key) > MaxKeyLength then Step(Err(InvalidKey), s)
    else
      var limit := RequestedLimit(maxStorageSize, maxSize);
      if f.blobSave then Step(Err(BlobStoreError), s)
      else
        var written := s.(blobs := s.blobs[(tenant, plugin, key) := data]);
        var allocatedSize: int := |data|;
        var row := (tenant, plugin);
        var ck := CacheKey(tenant, plugin, key);
        if f.ledgerGet || row !in s.ledger then
          // the lookup found no row, or failed: the quota test comes before telling which
          if allocatedSize > maxStorageSize || allocatedSize > limit then Step(Err(QuotaExceeded), written)
          else if f.ledgerGet || f.ledgerWrite then Step(Err(LedgerError), written)
          else Invalidate(written.(ledger := s.ledger[row := allocatedSize]), ck, f)
        else
          var used := s.ledger[row];
          var total := WrapInt64(allocatedSize + used);
          if total > limit || total > maxStorageSize then Step(Err(QuotaExceeded), written)
          else if f.ledgerWrite || !InInt64(used + allocatedSize) then Step(Err(LedgerError), written)
          else Invalidate(written.(ledger := s.ledger[row := used + allocatedSize]), ck, f)
  }

  /** Load: cache lookup, then on a miss the blob store, filling the cache. */
  function LoadStep(s: State, tenant: string, plugin: string, key: string, f: Faults): (r: Step<Result<seq<byte>>>)
    ensures r.post.blobs == s.blobs && r.post.ledger == s.ledger
    // the bytes returned are the decoded cache entry or the stored blob
    ensures r.result.Ok? ==>
              || (CacheKey(tenant, plugin, key) in s.cache
                  && Decode(s.cache[CacheKey(tenant, plugin, key)]) == Some(r.result.value))
              || ((tenant, plugin, key) in s.blobs && r.result.value == s.blobs[(tenant, plugin, key)])
    // the cache changes only by caching the encoding of what is returned
    ensures r.post.cache == s.cache
            || (r.result.Ok? && r.post.cache == s.cache[CacheKey(tenant, plugin, key) := Encode(r.result.value)])
  {
    var ck := CacheKey(tenant, plugin, key);
    if f.cacheGet then Step(Err(CacheError), s)
    else if ck in s.cache then
      match Decode(s.cache[ck])
      case Some(d) => Step(Ok(d), s)
      case None => Step(Err(DecodeError), s)
    else if f.blobLoad || (tenant, plugin, key) !in s.blobs then Step(Err(BlobStoreError), s)
    else
      var d := s.blobs[(tenant, plugin, key)];
      // a failure to fill the cache is ignored
      if f.cacheSet then Step(Ok(d), s)
      else Step(Ok(d), s.(cache := s.cache[ck := Encode(d)]))
  }

  /** Delete: cache invalidation, size lookup, blob removal, ledger decrement. */
  function DeleteStep(s: State, tenant: string, plugin: string, key: string, f: Faults): (r: Step<Result<()>>)
    ensures r.post.cache == s.cache || r.post.cache == s.cache - {CacheKey(tenant, plugin, key)}
    // a failed cache delete ends the operation before anything else
    ensures r.result == Err(CacheError) <==> r.post == s && f.cacheDel
    ensures f.cacheDel ==> r == Step(Err(CacheError), s)
    ensures r.result != Err(CacheError) ==> CacheKey(tenant, plugin, key) !in r.post.cache
    ensures r.post.blobs == s.blobs || r.post.blobs == s.blobs - {(tenant, plugin, key)}
    ensures r.post.ledger - {(tenant, plugin)} == s.ledger - {(tenant, plugin)}
    // the row drops only by the size of a blob that was removed
    ensures r.post.ledger != s.ledger ==>
              && (tenant, plugin, key) in s.blobs
              && r.post.blobs == s.blobs - {(tenant, plugin, key)}
              && (tenant, plugin) in s.ledger && (tenant, plugin) in r.post.ledger
              && r.post.ledger[(tenant, plugin)] == s.ledger[(tenant, plugin)] - |s.blobs[(tenant, plugin, key)]|
  {
    if f.cacheDel then Step(Err(CacheError), s)
    else
      var cleared := s.(cache := s.cache - {CacheKey(tenant, plugin, key)});
      var id := (tenant, plugin, key);
      // a failed size lookup, a missing blob included, ends the operation with success
      if f.blobSize || id !in s.blobs then Step(Ok(()), cleared)
      else
        var size := |s.blobs[id]|;
        // so does a failed blob delete
        if f.blobDelete then Step(Ok(()), cleared)
        else
          var removed := cleared.(blobs := s.blobs - {id});
          var row := (tenant, plugin);
          if f.ledgerWrite then Step(Err(LedgerError), removed)
          else if row !in s.ledger then Step(Ok(()), removed)
          else if !InInt64(s.ledger[row] - size) then Step(Err(LedgerError), removed)
          else Step(Ok(()), removed.(ledger := s.ledger[row := s.ledger[row] - size]))
  }

  class Persistence {
    const maxStorageSize: int64
    var blobs: map<BlobId, seq<byte>>
    var cache: map<string, string>
    var ledger: map<RowId, int64>

    function Snapshot(): State
      reads this
    {
      State(blobs, cache, ledger)
    }

    constructor (maxStorageSize: int64)
      ensures this.maxStorageSize == maxStorageSize
      ensures Snapshot() == State(map[], map[], map[])
    {
      this.maxStorageSize := maxStorageSize;
      blobs, cache, ledger := map[], map[], map[];
    }

    method Save(tenant: string, plugin: string, maxSize: int64, key: string, data: seq<byte>, f: Faults)
      returns (r: Result<()>)
      requires |data| <= Int64Max
      modifies this
      ensures Step(r, Snapshot()) == SaveStep(maxStorageSize, old(Snapshot()), tenant, plugin, maxSize, key, data, f)
    {
      if Utf8.Length(key) > MaxKeyLength {
        return Err(InvalidKey);
      }
      var limit := maxSize;
      if maxSize == -1 {
        limit := maxStorageSize;
      }
      // the payload is written before the quota is looked at
      if f.blobSave {
        return Err(BlobStoreError);
      }
      blobs := blobs[(tenant, plugin, key) := data];
      var allocatedSize: int64 := |data|;
      var row := (tenant, plugin);
      if f.ledgerGet || row !in ledger {
        if allocatedSize > maxStorageSize || allocatedSize > limit {
          return Err(QuotaExceeded);
        }
        if f.ledgerGet || f.ledgerWrite {
          return Err(LedgerError);
        }
        ledger := ledger[row := allocatedSize];
      } else {
        var used := ledger[row];
        var total := WrapInt64(allocatedSize + used);
        if total > limit || total > maxStorageSize {
          return Err(QuotaExceeded);
        }
        if f.ledgerWrite || !InInt64(used + allocatedSize) {
          return Err(LedgerError);
        }
        ledger := ledger[row := used + allocatedSize];
      }
      if f.cacheDel {
        return Err(CacheError);
      }
      cache := cache - {CacheKey(tenant, plugin, key)};
      return Ok(());
    }

    method Load(tenant: string, plugin: string, key: string, f: Faults) returns (r: Result<seq<byte>>)
      modifies this
      ensures Step(r, Snapshot()) == LoadStep(old(Snapshot()), tenant, plugin, key, f)
    {
      var ck := CacheKey(tenant, plugin, key);
      if f.cacheGet {
        return Err(CacheError);
      }
      if ck in cache {
        var decoded := Decode(cache[ck]);
        if decoded.None? {
          return Err(DecodeError);
        }
        return Ok(decoded.value);
      }
      var id := (tenant, plugin, key);
      if f.blobLoad || id !in blobs {
        return Err(BlobStoreError);
      }
      var data := blobs[id];
      if !f.cacheSet {
        cache := cache[ck := Encode(data)];
      }
      return Ok(data);
    }

    method Delete(tenant: string, plugin: string, key: string, f: Faults) returns (r: Result<()>)
      modifies this
      ensures Step(r, Snapshot()) == DeleteStep(old(Snapshot()), tenant, plugin, key, f)
    {
      if f.cacheDel {
        return Err(CacheError);
      }
      cache := cache - {CacheKey(tenant, plugin, key)};
      var id := (tenant, plugin, key);
      if f.blobSize || id !in blobs {
        return Ok(());
      }
      var size := |blobs[id]|;
      if f.blobDelete {
        return Ok(());
      }
      blobs := blobs - {id};
      if f.ledgerWrite {
        return Err(LedgerError);
      }
      var row := (tenant, plugin);
      if row in ledger {
        if !InInt64(ledger[row] - size) {
          return Err(LedgerError);
        }
        ledger := ledger[row := ledger[row] - size];
      }
      return Ok(());
    }
  }
}
