/**
  The values the engine hands out: the fired or peeked item (`MagazineData`) and the
  per-shard metadata snapshot (`MetaData`), plus the runtime class information the
  type checks and casts consult.
 */
module Records {
  import opened Wrappers
  import opened Text
  import opened Keys

  /** A runtime class, by name, with the names of all its proper supertypes. */
  datatype JClass = JClass(name: string, supertypes: set<string>)

  /** `target.isAssignableFrom(from)`: `from` is `target` or one of its subtypes. */
  predicate IsAssignableFrom(target: JClass, from: JClass)
  {
    from.name == target.name || target.name in from.supertypes
  }

  /** A data object as the store keeps it: its runtime class and its `toString()` text. */
  datatype Payload = Payload(cls: JClass, text: string)

  /** `clazz.cast(value)` succeeds exactly when the value's class is clazz or a subtype of it. */
  predicate CastSucceeds(clazz: JClass, value: Payload)
  {
    IsAssignableFrom(clazz, value.cls)
  }

  /** One queue item: its data, the position it was fired from, its shard (None when unsharded) and its magazine. */
  datatype MagazineData = MagazineData(data: Payload, firePointer: int, shard: Option<int>, magazineIdentifier: string)

  /**
    `createAerospikeKey()`: `id_SHARD_<shard>_<firePointer>` with a shard, `id_<firePointer>`
    without; it is the engine's data key for the item's position, so deleting an item
    removes the record it was read from, whatever its data.
   */
  function CreateAerospikeKey(m: MagazineData): (k: string)
    ensures k == DataKey(m.magazineIdentifier, m.shard, m.firePointer)
  {
    if m.shard.Some? then
      m.magazineIdentifier + "_" + ShardPrefix + "_" + IntToString(m.shard.value) + "_" + IntToString(m.firePointer)
    else
      m.magazineIdentifier + "_" + IntToString(m.firePointer)
  }

  /** The counters and pointers of one shard. */
  datatype MetaData = MetaData(fireCounter: int, loadCounter: int, firePointer: int, loadPointer: int)

  /**
    The active-shard filter of the fire cache: a shard has something to fire when more
    items were loaded than fired and the load pointer is ahead of the fire pointer.
   */
  predicate IsActive(m: MetaData)
  {
    m.loadCounter > m.fireCounter && m.loadPointer > m.firePointer
  }

  /** The labels the fire cache lists as active in a metadata map. */
  function ActiveLabels(meta: map<string, MetaData>): (labels: set<string>)
    ensures forall l :: l in labels <==> l in meta && IsActive(meta[l])
  {
    set l | l in meta && IsActive(meta[l])
  }
}
