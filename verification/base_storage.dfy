/**
  The configuration every magazine storage carries, fixed at construction: the
  storage kind, the TTLs, the dedupe switch, the shard count (clamped to at least
  one), the farm and client ids, and the scope, which must be LOCAL.
 */
module BaseStorage {
  import opened Wrappers
  import opened Text
  import opened Errors
  import opened Keys
  import opened Scope

  datatype StorageType = Aerospike | HBase

  /** A shard count after the clamp. */
  type ShardCount = n: int | 1 <= n <= IntMax witness 1

  datatype BaseMagazineStorage = BaseMagazineStorage(
    storageType: StorageType,
    recordTtl: Int32,
    metaDataTtl: Int32,
    enableDeDupe: bool,
    shards: ShardCount,
    farmId: string,
    clientId: string,
    scope: MagazineScope)

  /** The shard clamp: a requested count below one becomes MIN_SHARDS. */
  function ClampShards(shards: Int32): (n: ShardCount)
    ensures shards < 1 ==> n == MinShards
    ensures shards >= 1 ==> n == shards
  {
    if shards < 1 then MinShards else shards
  }

  /**
    The constructor: every field is stored as given, except the shard count, which is
    clamped; then the scope guard runs, so a GLOBAL storage is never built.
   */
  function NewBaseMagazineStorage(
    storageType: StorageType,
    recordTtl: Int32,
    metaDataTtl: Int32,
    farmId: string,
    enableDeDupe: bool,
    shards: Int32,
    clientId: string,
    scope: MagazineScope): (r: Result<BaseMagazineStorage, MagazineException>)
    ensures r.Ok? <==> scope == Local
    ensures r.Err? ==> r.error.code == NotImplemented
    ensures r.Ok? ==>
              r.value.storageType == storageType && r.value.recordTtl == recordTtl &&
              r.value.metaDataTtl == metaDataTtl && r.value.enableDeDupe == enableDeDupe &&
              r.value.farmId == farmId && r.value.clientId == clientId && r.value.scope == scope
    ensures r.Ok? ==> r.value.shards >= MinShards && (shards >= 1 ==> r.value.shards == shards)
  {
    var base := BaseMagazineStorage(storageType, recordTtl, metaDataTtl, enableDeDupe,
                                    ClampShards(shards), farmId, clientId, scope);
    match ValidateMagazineScope(scope)
    case Some(ex) => Err(ex)
    case None => Ok(base)
  }

  /** `AerospikeStorageConfig`: where the records live and the TTLs and shard count requested. */
  datatype AerospikeStorageConfig = AerospikeStorageConfig(
    namespace: string,
    metaSetName: string,
    dataSetName: string,
    recordTtl: Int32,
    shards: Int32,
    metaDataTtl: Int32)
}
