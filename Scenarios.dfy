/**
  Concrete runs of the coordinator, and the consequences of writing the blob
  before the quota is tested, of counting every Save, and of joining cache
  keys with colons.
 */
module Scenarios {
  import opened Hex
  import opened Persistence
  import opened PersistenceProperties

  function Zeros(n: nat): (b: seq<byte>)
    ensures |b| == n
  {
    seq(n, _ => 0)
  }

  const Empty := State(map[], map[], map[])

  /** Default quota 1000 bytes: 100 bytes fit, 950 more do not, and fit again once the 100 are deleted. */
  lemma QuotaScenario()
    ensures var r1 := SaveStep(1000, Empty, "T1", "P1", -1, "a", Zeros(100), NoFaults);
            var r2 := SaveStep(1000, r1.post, "T1", "P1", -1, "b", Zeros(950), NoFaults);
            var r3 := DeleteStep(r2.post, "T1", "P1", "a", NoFaults);
            var r4 := SaveStep(1000, r3.post, "T1", "P1", -1, "b", Zeros(950), NoFaults);
            && r1.result == Ok(()) && Usage(r1.post, "T1", "P1") == 100
            && r2.result == Err(QuotaExceeded) && Usage(r2.post, "T1", "P1") == 100
            && r3.result == Ok(()) && Usage(r3.post, "T1", "P1") == 0
            && r4.result == Ok(()) && Usage(r4.post, "T1", "P1") == 950
  {
  }

  /** A Save refused by the quota leaves its blob behind; deleting that blob subtracts
      bytes that were never counted, after which the stored bytes exceed the quota. */
  lemma OrphanedBlobLetsStorageExceedQuota()
    ensures var r1 := SaveStep(1000, Empty, "T1", "P1", -1, "a", Zeros(100), NoFaults);
            var r2 := SaveStep(1000, r1.post, "T1", "P1", -1, "b", Zeros(950), NoFaults);
            var r3 := DeleteStep(r2.post, "T1", "P1", "b", NoFaults);
            var r4 := SaveStep(1000, r3.post, "T1", "P1", -1, "c", Zeros(1000), NoFaults);
            && r2.result == Err(QuotaExceeded) && ("T1", "P1", "b") in r2.post.blobs
            && r3.result == Ok(()) && Usage(r3.post, "T1", "P1") == -850
            && r4.result == Ok(()) && r4.post.blobs.Keys == {("T1", "P1", "a"), ("T1", "P1", "c")}
            && |r4.post.blobs[("T1", "P1", "a")]| + |r4.post.blobs[("T1", "P1", "c")]| == 1100
  {
  }

  /** Saving the same key twice counts its size twice, though one copy is stored. */
  lemma OverwriteIsCountedTwice(mss: int64, s: State, tenant: string, plugin: string, maxSize: int64,
                                key: string, data: seq<byte>)
    requires |data| <= Int64Max
    requires SaveStep(mss, s, tenant, plugin, maxSize, key, data, NoFaults).result.Ok?
    requires SaveStep(mss, SaveStep(mss, s, tenant, plugin, maxSize, key, data, NoFaults).post,
                      tenant, plugin, maxSize, key, data, NoFaults).result.Ok?
    ensures var first := SaveStep(mss, s, tenant, plugin, maxSize, key, data, NoFaults);
            var second := SaveStep(mss, first.post, tenant, plugin, maxSize, key, data, NoFaults);
            && second.post.blobs == s.blobs[(tenant, plugin, key) := data]
            && Usage(second.post, tenant, plugin) == Usage(s, tenant, plugin) + 2 * |data|
  {
  }

  /** A Save refused by the quota replaces the stored blob but not its cache entry:
      Load keeps returning the old bytes, and the cache no longer matches the store. */
  lemma RejectedSaveLeavesStaleCache(mss: int64, s: State, tenant: string, plugin: string, maxSize: int64,
                                     key: string, data: seq<byte>, previous: seq<byte>, g: Faults)
    requires |data| <= Int64Max
    requires SaveStep(mss, s, tenant, plugin, maxSize, key, data, NoFaults).result == Err(QuotaExceeded)
    requires CacheKey(tenant, plugin, key) in s.cache && s.cache[CacheKey(tenant, plugin, key)] == Encode(previous)
    requires !g.cacheGet
    ensures var post := SaveStep(mss, s, tenant, plugin, maxSize, key, data, NoFaults).post;
            && post.blobs[(tenant, plugin, key)] == data
            && LoadStep(post, tenant, plugin, key, g).result == Ok(previous)
            && (previous != data && IdsWellFormed(tenant, plugin) ==> !CacheCoherent(post))
  {
    DecodeEncode(previous);
  }

  /** A Save that fails at the ledger or at the cache invalidation has also written its blob
      without touching the cache: Load keeps returning the old bytes. */
  lemma FailedSaveLeavesStaleCache(mss: int64, s: State, tenant: string, plugin: string, maxSize: int64,
                                   key: string, data: seq<byte>, f: Faults, previous: seq<byte>, g: Faults)
    requires |data| <= Int64Max
    requires SaveStep(mss, s, tenant, plugin, maxSize, key, data, f).result in {Err(LedgerError), Err(CacheError)}
    requires CacheKey(tenant, plugin, key) in s.cache && s.cache[CacheKey(tenant, plugin, key)] == Encode(previous)
    requires !g.cacheGet
    ensures var post := SaveStep(mss, s, tenant, plugin, maxSize, key, data, f).post;
            && post.blobs[(tenant, plugin, key)] == data
            && LoadStep(post, tenant, plugin, key, g).result == Ok(previous)
  {
    DecodeEncode(previous);
  }

  /** A Save that fails only at the cache invalidation has already counted its bytes:
      retrying it successfully counts them a second time. */
  lemma RetryAfterCacheErrorCountsTwice(mss: int64, s: State, tenant: string, plugin: string, maxSize: int64,
                                        key: string, data: seq<byte>, f: Faults)
    requires |data| <= Int64Max
    requires SaveStep(mss, s, tenant, plugin, maxSize, key, data, f).result == Err(CacheError)
    requires SaveStep(mss, SaveStep(mss, s, tenant, plugin, maxSize, key, data, f).post,
                      tenant, plugin, maxSize, key, data, NoFaults).result.Ok?
    ensures var first := SaveStep(mss, s, tenant, plugin, maxSize, key, data, f);
            var retry := SaveStep(mss, first.post, tenant, plugin, maxSize, key, data, NoFaults);
            && first.post.cache == s.cache
            && Usage(first.post, tenant, plugin) == Usage(s, tenant, plugin) + |data|
            && Usage(retry.post, tenant, plugin) == Usage(s, tenant, plugin) + 2 * |data|
  {
  }

  /** Colons inside a tenant or plugin identifier make two blobs share one cache entry. */
  lemma CacheKeysCollideOnColons()
    ensures CacheKey("T1:x", "P1", "k") == CacheKey("T1", "x:P1", "k")
    ensures ("T1:x", "P1", "k") != ("T1", "x:P1", "k")
  {
  }

  /** The int64 sum in the quota test wraps: a row at the int64 maximum lets one more byte
      through the test, and only the ledger update then fails. */
  lemma WrappedSumPassesQuotaTest()
    ensures var s := State(map[], map[], map[("T1", "P1") := Int64Max]);
            var r := SaveStep(1000, s, "T1", "P1", -1, "k", [7], NoFaults);
            && WrapInt64(Int64Max + 1) == Int64Min
            && r.result == Err(LedgerError)
            && r.post.ledger == s.ledger && r.post.blobs[("T1", "P1", "k")] == [7]
  {
  }
}
