/**
  What the coordinator promises, stated over its step functions: the key-length
  check, the quota admission rule, the write-before-check ordering, cache
  invalidation and read-through, and the accounting of Delete.
 */
module PersistenceProperties {
  import opened Hex
  import Utf8
  import opened Persistence

  // ----- Save -----

  /** An over-long key is refused before any collaborator is touched. */
  lemma SaveRejectsLongKey(mss: int64, s: State, tenant: string, plugin: string, maxSize: int64,
                           key: string, data: seq<byte>, f: Faults)
    requires |data| <= Int64Max
    requires Utf8.Length(key) > MaxKeyLength
    ensures SaveStep(mss, s, tenant, plugin, maxSize, key, data, f) == Step(Err(InvalidKey), s)
  {
  }

  /** A failed blob write ends Save with nothing changed. */
  lemma SaveBlobWriteFailure(mss: int64, s: State, tenant: string, plugin: string, maxSize: int64,
                             key: string, data: seq<byte>, f: Faults)
    requires |data| <= Int64Max
    requires Utf8.Length(key) <= MaxKeyLength && f.blobSave
    ensures SaveStep(mss, s, tenant, plugin, maxSize, key, data, f) == Step(Err(BlobStoreError), s)
  {
  }

  /** Once the blob write succeeds the blob stays, whatever the quota decides;
      a quota refusal changes neither the ledger nor the cache. */
  lemma SaveWritesBeforeQuota(mss: int64, s: State, tenant: string, plugin: string, maxSize: int64,
                              key: string, data: seq<byte>, f: Faults)
    requires |data| <= Int64Max
    requires Utf8.Length(key) <= MaxKeyLength && !f.blobSave
    ensures var r := SaveStep(mss, s, tenant, plugin, maxSize, key, data, f);
            && r.post.blobs == s.blobs[(tenant, plugin, key) := data]
            && (r.result == Err(QuotaExceeded) ==> r.post.ledger == s.ledger && r.post.cache == s.cache)
  {
  }

  /** Without a ledger row, Save is refused exactly when the data exceeds the default or the
      requested quota, whether or not the ledger write then fails; admission creates the row with
      the data's size, and a failed row creation is reported with the ledger unchanged. */
  lemma SaveNewRow(mss: int64, s: State, tenant: string, plugin: string, maxSize: int64,
                   key: string, data: seq<byte>, f: Faults)
    requires |data| <= Int64Max
    requires Utf8.Length(key) <= MaxKeyLength && !f.blobSave && !f.ledgerGet
    requires (tenant, plugin) !in s.ledger
    ensures var r := SaveStep(mss, s, tenant, plugin, maxSize, key, data, f);
            && (r.result == Err(QuotaExceeded) <==> |data| > mss || |data| > RequestedLimit(mss, maxSize))
            && (r.result == Err(QuotaExceeded) ==> r.post.ledger == s.ledger)
            && (r.result != Err(QuotaExceeded) && f.ledgerWrite ==>
                  r.result == Err(LedgerError) && r.post.ledger == s.ledger)
            && (r.result != Err(QuotaExceeded) && !f.ledgerWrite ==>
                  r.post.ledger == s.ledger[(tenant, plugin) := |data|])
  {
  }

  /** With a ledger row of size u (and no int64 overflow of u + |data|), Save is refused with
      the ledger unchanged exactly when u + |data| exceeds either quota, whether or not the ledger
      write then fails; otherwise the row becomes u + |data|, or a failed increment is reported
      with the ledger unchanged. */
  lemma SaveExistingRow(mss: int64, s: State, tenant: string, plugin: string, maxSize: int64,
                        key: string, data: seq<byte>, f: Faults)
    requires |data| <= Int64Max
    requires Utf8.Length(key) <= MaxKeyLength && !f.blobSave && !f.ledgerGet
    requires (tenant, plugin) in s.ledger && s.ledger[(tenant, plugin)] + |data| <= Int64Max
    ensures var r := SaveStep(mss, s, tenant, plugin, maxSize, key, data, f);
            var u := s.ledger[(tenant, plugin)];
            && (r.result == Err(QuotaExceeded) <==> u + |data| > Bound(mss, maxSize))
            && (r.result == Err(QuotaExceeded) ==> r.post.ledger == s.ledger)
            && (r.result != Err(QuotaExceeded) && f.ledgerWrite ==>
                  r.result == Err(LedgerError) && r.post.ledger == s.ledger)
            && (r.result != Err(QuotaExceeded) && !f.ledgerWrite ==>
                  r.post.ledger == s.ledger[(tenant, plugin) := u + |data|])
  {
  }

  /** Past the quota test and the ledger write, Save returns the outcome of the cache delete:
      the ledger already holds the new size either way, and only a successful delete
      removes the cache entry. */
  lemma SaveCacheDeleteFailure(mss: int64, s: State, tenant: string, plugin: string, maxSize: int64,
                               key: string, data: seq<byte>, f: Faults)
    requires |data| <= Int64Max
    requires Utf8.Length(key) <= MaxKeyLength && !f.blobSave && !f.ledgerGet && !f.ledgerWrite
    requires if (tenant, plugin) in s.ledger
             then s.ledger[(tenant, plugin)] + |data| <= Bound(mss, maxSize)
             else |data| <= Bound(mss, maxSize)
    ensures var r := SaveStep(mss, s, tenant, plugin, maxSize, key, data, f);
            && r.result == (if f.cacheDel then Err(CacheError) else Ok(()))
            && (tenant, plugin) in r.post.ledger
            && r.post.ledger[(tenant, plugin)] == Usage(s, tenant, plugin) + |data|
            && r.post.blobs == s.blobs[(tenant, plugin, key) := data]
            && r.post.cache == (if f.cacheDel then s.cache else s.cache - {CacheKey(tenant, plugin, key)})
  {
  }

  /** A failed ledger lookup still applies the quota test to the data alone before
      reporting the ledger error; the ledger is not written. */
  lemma SaveLookupFailure(mss: int64, s: State, tenant: string, plugin: string, maxSize: int64,
                          key: string, data: seq<byte>, f: Faults)
    requires |data| <= Int64Max
    requires Utf8.Length(key) <= MaxKeyLength && !f.blobSave && f.ledgerGet
    ensures var r := SaveStep(mss, s, tenant, plugin, maxSize, key, data, f);
            && r.result == (if |data| > Bound(mss, maxSize) then Err(QuotaExceeded) else Err(LedgerError))
            && r.post.ledger == s.ledger
  {
  }

  /** A successful Save adds exactly the data's size to the (tenant, plugin) usage. */
  lemma SaveSuccessAddsSize(mss: int64, s: State, tenant: string, plugin: string, maxSize: int64,
                            key: string, data: seq<byte>, f: Faults)
    requires |data| <= Int64Max
    requires SaveStep(mss, s, tenant, plugin, maxSize, key, data, f).result.Ok?
    ensures Usage(SaveStep(mss, s, tenant, plugin, maxSize, key, data, f).post, tenant, plugin)
            == Usage(s, tenant, plugin) + |data|
  {
  }

  /** After a successful Save, Load returns the new data, whatever the cache held before. */
  lemma LoadAfterSave(mss: int64, s: State, tenant: string, plugin: string, maxSize: int64,
                      key: string, data: seq<byte>, f: Faults, g: Faults)
    requires |data| <= Int64Max
    requires SaveStep(mss, s, tenant, plugin, maxSize, key, data, f).result.Ok?
    requires !g.cacheGet && !g.blobLoad
    ensures LoadStep(SaveStep(mss, s, tenant, plugin, maxSize, key, data, f).post, tenant, plugin, key, g).result
            == Ok(data)
  {
  }

  // ----- A run of Saves -----

  datatype Put = Put(key: string, data: seq<byte>)

  predicate PutsAcceptable(puts: seq<Put>) {
    forall i :: 0 <= i < |puts| ==> Utf8.Length(puts[i].key) <= MaxKeyLength && |puts[i].data| <= Int64Max
  }

  function TotalSize(puts: seq<Put>): nat {
    if puts == [] then 0 else |puts[0].data| + TotalSize(puts[1..])
  }

  /** Saves of puts, in order, to one (tenant, plugin), with no collaborator failing. */
  function SaveAll(mss: int64, s: State, tenant: string, plugin: string, maxSize: int64, puts: seq<Put>)
    : (r: Step<seq<Result<()>>>)
    requires PutsAcceptable(puts)
    ensures |r.result| == |puts|
    decreases |puts|
  {
    if puts == [] then Step([], s)
    else
      var first := SaveStep(mss, s, tenant, plugin, maxSize, puts[0].key, puts[0].data, NoFaults);
      var rest := SaveAll(mss, first.post, tenant, plugin, maxSize, puts[1..]);
      Step([first.result] + rest.result, rest.post)
  }

  /** Saves whose cumulative size stays within the bound all succeed, and the ledger
      then accounts exactly the sum of their sizes on top of what it held. */
  lemma {:induction false} SavesWithinQuotaAccumulate(mss: int64, s: State, tenant: string, plugin: string,
                                                      maxSize: int64, puts: seq<Put>)
    requires PutsAcceptable(puts)
    requires Usage(s, tenant, plugin) + TotalSize(puts) <= Bound(mss, maxSize)
    ensures var r := SaveAll(mss, s, tenant, plugin, maxSize, puts);
            && (forall i :: 0 <= i < |puts| ==> r.result[i] == Ok(()))
            && Usage(r.post, tenant, plugin) == Usage(s, tenant, plugin) + TotalSize(puts)
    decreases |puts|
  {
    if puts != [] {
      var p0 := puts[0];
      assert Utf8.Length(p0.key) <= MaxKeyLength && |p0.data| <= Int64Max;
      assert TotalSize(puts) == |p0.data| + TotalSize(puts[1..]);
      var first := SaveStep(mss, s, tenant, plugin, maxSize, p0.key, p0.data, NoFaults);
      if (tenant, plugin) in s.ledger {
        assert s.ledger[(tenant, plugin)] + |p0.data| <= Bound(mss, maxSize);
        SaveExistingRow(mss, s, tenant, plugin, maxSize, p0.key, p0.data, NoFaults);
      } else {
        SaveNewRow(mss, s, tenant, plugin, maxSize, p0.key, p0.data, NoFaults);
      }
      assert first.result == Ok(()) && Usage(first.post, tenant, plugin) == Usage(s, tenant, plugin) + |p0.data|;
      assert PutsAcceptable(puts[1..]) by {
        forall i | 0 <= i < |puts| - 1 ensures puts[1..][i] == puts[i + 1] { }
      }
      SavesWithinQuotaAccumulate(mss, first.post, tenant, plugin, maxSize, puts[1..]);
    }
  }

  // ----- Load -----

  /** A cache failure other than "not found" is returned as is, with nothing changed. */
  lemma LoadCacheFailure(s: State, tenant: string, plugin: string, key: string, f: Faults)
    requires f.cacheGet
    ensures LoadStep(s, tenant, plugin, key, f) == Step(Err(CacheError), s)
  {
  }

  /** A cache hit returns the decoding of the cached text, or the decoding error, and
      touches neither the cache nor the store. */
  lemma LoadCacheHit(s: State, tenant: string, plugin: string, key: string, f: Faults)
    requires !f.cacheGet && CacheKey(tenant, plugin, key) in s.cache
    ensures var r := LoadStep(s, tenant, plugin, key, f);
            var text := s.cache[CacheKey(tenant, plugin, key)];
            && r.post == s
            && r.result == (if Decode(text).Some? then Ok(Decode(text).value) else Err(DecodeError))
  {
  }

  /** A cache miss returns the stored blob and fills the cache with its encoding;
      a failed fill is ignored. */
  lemma LoadCacheMiss(s: State, tenant: string, plugin: string, key: string, f: Faults)
    requires !f.cacheGet && CacheKey(tenant, plugin, key) !in s.cache
    requires !f.blobLoad && (tenant, plugin, key) in s.blobs
    ensures var r := LoadStep(s, tenant, plugin, key, f);
            var data := s.blobs[(tenant, plugin, key)];
            && r.result == Ok(data)
            && r.post.blobs == s.blobs && r.post.ledger == s.ledger
            && r.post.cache == (if f.cacheSet then s.cache else s.cache[CacheKey(tenant, plugin, key) := Encode(data)])
  {
  }

  /** A cache miss on a blob the store cannot give back is an error, with nothing changed. */
  lemma LoadMissingBlob(s: State, tenant: string, plugin: string, key: string, f: Faults)
    requires !f.cacheGet && CacheKey(tenant, plugin, key) !in s.cache
    requires f.blobLoad || (tenant, plugin, key) !in s.blobs
    ensures LoadStep(s, tenant, plugin, key, f) == Step(Err(BlobStoreError), s)
  {
  }

  /** Once a miss has filled the cache, the next Load is a hit that returns the same bytes
      and changes nothing. */
  lemma LoadAfterFillHitsCache(s: State, tenant: string, plugin: string, key: string, f: Faults, g: Faults)
    requires !f.cacheGet && !f.cacheSet && !f.blobLoad && !g.cacheGet
    requires CacheKey(tenant, plugin, key) !in s.cache && (tenant, plugin, key) in s.blobs
    ensures var first := LoadStep(s, tenant, plugin, key, f);
            var second := LoadStep(first.post, tenant, plugin, key, g);
            second == Step(first.result, first.post)
  {
    DecodeEncode(s.blobs[(tenant, plugin, key)]);
  }

  // ----- Cache coherence -----

  /** Every cache entry of a well-formed (tenant, plugin) decodes to the stored blob. */
  ghost predicate CacheCoherent(s: State) {
    forall tenant, plugin, key ::
      IdsWellFormed(tenant, plugin) && CacheKey(tenant, plugin, key) in s.cache ==>
        && (tenant, plugin, key) in s.blobs
        && Decode(s.cache[CacheKey(tenant, plugin, key)]) == Some(s.blobs[(tenant, plugin, key)])
  }

  /** A colon-free part followed by a colon cannot be matched by a longer colon-free part. */
  lemma ColonEndsFirstPart(a: string, x: string, b: string, y: string)
    requires ':' !in b && |a| < |b|
    ensures a + ":" + x != b + ":" + y
  {
    assert (a + ":" + x)[|a|] == ':';
    assert (b + ":" + y)[|a|] == b[|a|];
  }

  /** Colons split a string uniquely when the part before them has none. */
  lemma SplitAtColon(a: string, x: string, b: string, y: string)
    requires ':' !in a && ':' !in b
    requires a + ":" + x == b + ":" + y
    ensures a == b && x == y
  {
    var joined := a + ":" + x;
    if |a| < |b| {
      ColonEndsFirstPart(a, x, b, y);
    } else if |b| < |a| {
      ColonEndsFirstPart(b, y, a, x);
    }
    assert a == joined[..|a|] == b;
    assert x == joined[|a| + 1..] == y;
  }

  /** Distinct blobs of well-formed tenants and plugins never share a cache entry. */
  lemma CacheKeyInjective(t1: string, p1: string, k1: string, t2: string, p2: string, k2: string)
    requires IdsWellFormed(t1, p1) && IdsWellFormed(t2, p2)
    requires CacheKey(t1, p1, k1) == CacheKey(t2, p2, k2)
    ensures t1 == t2 && p1 == p2 && k1 == k2
  {
    var n := |CacheKeyPrefix| + 1;
    assert CacheKey(t1, p1, k1)[n..] == t1 + ":" + (p1 + ":" + k1);
    assert CacheKey(t2, p2, k2)[n..] == t2 + ":" + (p2 + ":" + k2);
    SplitAtColon(t1, p1 + ":" + k1, t2, p2 + ":" + k2);
    SplitAtColon(p1, k1, p2, k2);
  }

  /** Load on a coherent cache returns the stored blob, whether from the cache or the store. */
  lemma LoadReturnsStoredBytes(s: State, tenant: string, plugin: string, key: string, f: Faults)
    requires CacheCoherent(s) && IdsWellFormed(tenant, plugin) && (tenant, plugin, key) in s.blobs
    requires !f.cacheGet && !f.blobLoad
    ensures LoadStep(s, tenant, plugin, key, f).result == Ok(s.blobs[(tenant, plugin, key)])
  {
  }

  /** Filling the cache on a miss keeps it coherent. */
  lemma LoadPreservesCoherence(s: State, tenant: string, plugin: string, key: string, f: Faults)
    requires CacheCoherent(s) && IdsWellFormed(tenant, plugin)
    ensures CacheCoherent(LoadStep(s, tenant, plugin, key, f).post)
  {
    var post := LoadStep(s, tenant, plugin, key, f).post;
    if post != s {
      var id := (tenant, plugin, key);
      DecodeEncode(s.blobs[id]);
      forall t, p, k | IdsWellFormed(t, p) && CacheKey(t, p, k) in post.cache
        ensures (t, p, k) in post.blobs && Decode(post.cache[CacheKey(t, p, k)]) == Some(post.blobs[(t, p, k)])
      {
        if CacheKey(t, p, k) == CacheKey(tenant, plugin, key) {
          CacheKeyInjective(t, p, k, tenant, plugin, key);
        }
      }
    }
  }

  /** A successful Save keeps the cache coherent. */
  lemma SavePreservesCoherence(mss: int64, s: State, tenant: string, plugin: string, maxSize: int64,
                               key: string, data: seq<byte>, f: Faults)
    requires |data| <= Int64Max
    requires CacheCoherent(s)
    requires SaveStep(mss, s, tenant, plugin, maxSize, key, data, f).result.Ok?
    ensures CacheCoherent(SaveStep(mss, s, tenant, plugin, maxSize, key, data, f).post)
  {
  }

  /** Delete keeps the cache coherent on every path. */
  lemma DeletePreservesCoherence(s: State, tenant: string, plugin: string, key: string, f: Faults)
    requires CacheCoherent(s)
    ensures CacheCoherent(DeleteStep(s, tenant, plugin, key, f).post)
  {
  }

  // ----- Delete -----

  /** A failed cache delete is returned before the store or the ledger is touched. */
  lemma DeleteCacheFailure(s: State, tenant: string, plugin: string, key: string, f: Faults)
    requires f.cacheDel
    ensures DeleteStep(s, tenant, plugin, key, f) == Step(Err(CacheError), s)
  {
  }

  /** With every collaborator answering, Delete removes the cache entry and the blob
      and lowers the ledger row by exactly the blob's size before deletion. */
  lemma DeleteAccounting(s: State, tenant: string, plugin: string, key: string, f: Faults)
    requires !f.cacheDel && !f.blobSize && !f.blobDelete && !f.ledgerWrite
    requires (tenant, plugin, key) in s.blobs && (tenant, plugin) in s.ledger
    requires InInt64(s.ledger[(tenant, plugin)] - |s.blobs[(tenant, plugin, key)]|)
    ensures var size := |s.blobs[(tenant, plugin, key)]|;
            DeleteStep(s, tenant, plugin, key, f)
            == Step(Ok(()), State(s.blobs - {(tenant, plugin, key)},
                                  s.cache - {CacheKey(tenant, plugin, key)},
                                  s.ledger[(tenant, plugin) := s.ledger[(tenant, plugin)] - size]))
  {
  }

  /** A failed size lookup (a missing blob included) or a failed blob delete is reported
      as success; only the cache entry is gone. */
  lemma DeleteSwallowsStoreFailures(s: State, tenant: string, plugin: string, key: string, f: Faults)
    requires !f.cacheDel
    requires f.blobSize || f.blobDelete || (tenant, plugin, key) !in s.blobs
    ensures DeleteStep(s, tenant, plugin, key, f)
            == Step(Ok(()), s.(cache := s.cache - {CacheKey(tenant, plugin, key)}))
  {
  }

  /** Once the blob is gone, a failed ledger decrement (a failed update or one leaving the
      int64 range) is reported, and the ledger keeps counting the removed blob. */
  lemma DeleteLedgerFailure(s: State, tenant: string, plugin: string, key: string, f: Faults)
    requires !f.cacheDel && !f.blobSize && !f.blobDelete && (tenant, plugin, key) in s.blobs
    requires || f.ledgerWrite
             || ((tenant, plugin) in s.ledger
                 && !InInt64(s.ledger[(tenant, plugin)] - |s.blobs[(tenant, plugin, key)]|))
    ensures DeleteStep(s, tenant, plugin, key, f)
            == Step(Err(LedgerError), State(s.blobs - {(tenant, plugin, key)},
                                            s.cache - {CacheKey(tenant, plugin, key)},
                                            s.ledger))
  {
  }

  /** Deleting a blob whose (tenant, plugin) has no ledger row succeeds with the ledger unchanged. */
  lemma DeleteWithoutRow(s: State, tenant: string, plugin: string, key: string, f: Faults)
    requires !f.cacheDel && !f.blobSize && !f.blobDelete && !f.ledgerWrite
    requires (tenant, plugin, key) in s.blobs && (tenant, plugin) !in s.ledger
    ensures DeleteStep(s, tenant, plugin, key, f)
            == Step(Ok(()), State(s.blobs - {(tenant, plugin, key)},
                                  s.cache - {CacheKey(tenant, plugin, key)},
                                  s.ledger))
  {
  }

  /** After a Delete that reached the blob store, Load finds nothing. */
  lemma LoadAfterDeleteFails(s: State, tenant: string, plugin: string, key: string, f: Faults, g: Faults)
    requires !f.cacheDel && !f.blobSize && !f.blobDelete && !g.cacheGet
    ensures LoadStep(DeleteStep(s, tenant, plugin, key, f).post, tenant, plugin, key, g).result == Err(BlobStoreError)
  {
  }

  /** Deleting a second time succeeds and changes nothing. */
  lemma DeleteIsIdempotent(s: State, tenant: string, plugin: string, key: string, f: Faults, g: Faults)
    requires !f.cacheDel && !f.blobSize && !f.blobDelete && !g.cacheDel
    ensures var first := DeleteStep(s, tenant, plugin, key, f);
            DeleteStep(first.post, tenant, plugin, key, g) == Step(Ok(()), first.post)
  {
  }
}
