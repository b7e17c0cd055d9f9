/**
 * Cache layout planning and metadata lookup (mm/kasan/common.c:89-240):
 * how __kasan_cache_create grows a cache's object size to hold the allocation
 * and free metadata and an adaptive redzone, and how the hooks later find that
 * metadata again.
 */
module KasanLayout {
  import opened KernelTypes
  import opened KasanConfig

  /**
   * optimal_redzone: the redzone width the adaptive policy picks for an object
   * size.  Each tier's limit is a power of two minus the tier's redzone.
   */
  function OptimalRedzone(objectSize: U32): (r: U32)
    ensures r == 16 <==> objectSize <= 48
    ensures r == 32 <==> 48 < objectSize <= 96
    ensures r == 64 <==> 96 < objectSize <= 448
    ensures r == 128 <==> 448 < objectSize <= 3968
    ensures r == 256 <==> 3968 < objectSize <= 16128
    ensures r == 512 <==> 16128 < objectSize <= 32256
    ensures r == 1024 <==> 32256 < objectSize <= 64512
    ensures r == 2048 <==> 64512 < objectSize
  {
    if objectSize <= 64 - 16 then 16
    else if objectSize <= 128 - 32 then 32
    else if objectSize <= 512 - 64 then 64
    else if objectSize <= 4096 - 128 then 128
    else if objectSize <= 0x4000 - 256 then 256
    else if objectSize <= 0x8000 - 512 then 512
    else if objectSize <= 0x1_0000 - 1024 then 1024
    else 2048
  }

  /** Larger objects never get a narrower redzone. */
  lemma OptimalRedzoneMonotonic(a: U32, b: U32)
    requires a <= b
    ensures OptimalRedzone(a) <= OptimalRedzone(b)
  {
  }

  /** The attributes of struct kmem_cache that the planner and the tag policy read. */
  datatype CacheShape = CacheShape(objectSize: U32, hasCtor: bool, typesafeByRcu: bool)

  /**
   * cache->kasan_info: where the metadata lives relative to the object.  An
   * alloc offset of 0 means "no alloc metadata"; a free offset of 0 means "stored
   * inside the freed object"; KASAN_NO_FREE_META means "no free metadata".
   */
  datatype KasanInfo = KasanInfo(allocMetaOffset: nat, freeMetaOffset: nat)

  /** The outcome of planning: the new kasan_info and the new *size. */
  datatype Plan = Plan(info: KasanInfo, size: U32)

  /**
   * The generic mode keeps free metadata in the redzone when the object itself
   * cannot hold it: the object may be read after free (RCU), must keep its
   * contents (constructor), or is too small.
   */
  predicate NeedsFreeMetaRedzone(cfg: Config, c: CacheShape)
  {
    c.typesafeByRcu || c.hasCtor || c.objectSize < cfg.freeMetaSize
  }

  /** Reserve `extra` bytes at offset `size`, or give `rollback` as the offset and keep the size when the sum would pass KMALLOC_MAX_SIZE. */
  function Reserve(cfg: Config, size: U32, extra: U32, rollback: nat): (nat, U32)
  {
    var grown := AddU32(size, extra);
    if grown > cfg.kmallocMaxSize then (rollback, size) else (size, grown)
  }

  /** object_size plus its optimal redzone, limited by KMALLOC_MAX_SIZE. */
  function OptimalSize(cfg: Config, objectSize: U32): (n: U32)
    requires cfg.Valid()
    ensures n <= cfg.kmallocMaxSize
    ensures objectSize + OptimalRedzone(objectSize) <= cfg.kmallocMaxSize ==> n == objectSize + OptimalRedzone(objectSize)
    ensures cfg.kmallocMaxSize < objectSize + OptimalRedzone(objectSize) < U32_LIMIT ==> n == cfg.kmallocMaxSize
  {
    var optimal := AddU32(objectSize, OptimalRedzone(objectSize));
    if optimal > cfg.kmallocMaxSize then cfg.kmallocMaxSize else optimal
  }

  /**
   * The layout __kasan_cache_create arrives at for a cache whose kasan_info was
   * `info` and whose size was `size` on entry.
   */
  function PlanCache(cfg: Config, c: CacheShape, info: KasanInfo, size: U32): (p: Plan)
    requires cfg.Valid()
    // Without stack collection nothing is planned.
    ensures !cfg.stackCollection ==> p == Plan(info, size)
    // Alloc metadata sits at the incoming size and inside the final size, or is dropped.
    ensures cfg.stackCollection && size + cfg.allocMetaSize <= cfg.kmallocMaxSize ==>
      p.info.allocMetaOffset == size && size + cfg.allocMetaSize <= p.size
    ensures cfg.stackCollection && cfg.kmallocMaxSize < size + cfg.allocMetaSize < U32_LIMIT ==>
      p.info.allocMetaOffset == 0
    // Tag modes: no free metadata and no redzone padding.
    ensures cfg.stackCollection && cfg.mode != Generic && size + cfg.allocMetaSize < U32_LIMIT ==>
      && p.info.freeMetaOffset == KASAN_NO_FREE_META
      && p.size == (if size + cfg.allocMetaSize <= cfg.kmallocMaxSize then size + cfg.allocMetaSize else size)
    // Generic mode: free metadata in the object body, right after the alloc metadata, or disabled.
    ensures cfg.stackCollection && cfg.mode == Generic && !NeedsFreeMetaRedzone(cfg, c) ==>
      p.info.freeMetaOffset == info.freeMetaOffset
    ensures cfg.stackCollection && cfg.mode == Generic && NeedsFreeMetaRedzone(cfg, c) &&
            size + cfg.allocMetaSize + cfg.freeMetaSize <= cfg.kmallocMaxSize ==>
      p.info.freeMetaOffset == size + cfg.allocMetaSize &&
      size + cfg.allocMetaSize + cfg.freeMetaSize <= p.size
    ensures cfg.stackCollection && cfg.mode == Generic && NeedsFreeMetaRedzone(cfg, c) &&
            size + cfg.allocMetaSize <= cfg.kmallocMaxSize < size + cfg.allocMetaSize + cfg.freeMetaSize ==>
      p.info.freeMetaOffset == KASAN_NO_FREE_META
    ensures cfg.stackCollection && cfg.mode == Generic && NeedsFreeMetaRedzone(cfg, c) &&
            cfg.kmallocMaxSize < size + cfg.allocMetaSize &&
            size + cfg.allocMetaSize + cfg.freeMetaSize < U32_LIMIT ==>
      p.info.freeMetaOffset == (if size + cfg.freeMetaSize <= cfg.kmallocMaxSize then size else KASAN_NO_FREE_META)
    // Generic mode: at least the object plus its optimal redzone (as far as KMALLOC_MAX_SIZE allows).
    ensures cfg.stackCollection && cfg.mode == Generic ==> OptimalSize(cfg, c.objectSize) <= p.size
    // Generic mode: the size after both metadata reservations, raised to the optimal size when smaller.
    ensures cfg.stackCollection && cfg.mode == Generic && size + cfg.allocMetaSize + cfg.freeMetaSize < U32_LIMIT ==>
      var afterAlloc := if size + cfg.allocMetaSize <= cfg.kmallocMaxSize then size + cfg.allocMetaSize else size;
      var afterFree :=
        if NeedsFreeMetaRedzone(cfg, c) && afterAlloc + cfg.freeMetaSize <= cfg.kmallocMaxSize
        then afterAlloc + cfg.freeMetaSize else afterAlloc;
      p.size == if afterFree < OptimalSize(cfg, c.objectSize) then OptimalSize(cfg, c.objectSize) else afterFree
    // The size only grows, and never past KMALLOC_MAX_SIZE when it started within it.
    ensures size + cfg.allocMetaSize + cfg.freeMetaSize < U32_LIMIT ==> size <= p.size
    ensures size <= cfg.kmallocMaxSize ==> p.size <= cfg.kmallocMaxSize
  {
    if !cfg.stackCollection then Plan(info, size)
    else
      var (allocOffset, s1) := Reserve(cfg, size, cfg.allocMetaSize, 0);
      if cfg.mode != Generic then
        Plan(KasanInfo(allocOffset, KASAN_NO_FREE_META), s1)
      else
        var (freeOffset, s2) :=
          if NeedsFreeMetaRedzone(cfg, c) then Reserve(cfg, s1, cfg.freeMetaSize, KASAN_NO_FREE_META)
          else (info.freeMetaOffset, s1);
        var optimal := OptimalSize(cfg, c.objectSize);
        Plan(KasanInfo(allocOffset, freeOffset), if s2 < optimal then optimal else s2)
  }

  /** kasan_get_alloc_meta: the address of an object's alloc metadata, if the cache has any. */
  function GetAllocMeta(info: KasanInfo, obj: Ptr): (m: Option<nat>)
    requires obj.At?
    ensures m.None? <==> info.allocMetaOffset == 0
    ensures m.Some? ==> m.value == obj.addr + info.allocMetaOffset
  {
    if info.allocMetaOffset == 0 then None else Some(obj.addr + info.allocMetaOffset)
  }

  /** kasan_get_free_meta (generic mode): the address of an object's free metadata, if enabled. */
  function GetFreeMeta(info: KasanInfo, obj: Ptr): (m: Option<nat>)
    requires obj.At?
    ensures m.None? <==> info.freeMetaOffset == KASAN_NO_FREE_META
    ensures m.Some? ==> m.value == obj.addr + info.freeMetaOffset
  {
    if info.freeMetaOffset == KASAN_NO_FREE_META then None else Some(obj.addr + info.freeMetaOffset)
  }

  /**
   * Once planned with everything fitting, an object's alloc metadata lies past
   * the incoming size and inside the final object slot.
   */
  lemma AllocMetaInsideSlot(cfg: Config, c: CacheShape, size: U32, obj: Ptr)
    requires cfg.Valid() && cfg.stackCollection && obj.At?
    requires 0 < size && size + cfg.allocMetaSize <= cfg.kmallocMaxSize
    ensures var p := PlanCache(cfg, c, KasanInfo(0, 0), size);
      && GetAllocMeta(p.info, obj) == Some(obj.addr + size)
      && obj.addr + size + cfg.allocMetaSize <= obj.addr + p.size
  {
  }

  /**
   * Free metadata after planning: absent in the tag modes, inside the object
   * when the generic mode does not need the redzone, and after the alloc
   * metadata otherwise.
   */
  lemma FreeMetaPlacement(cfg: Config, c: CacheShape, size: U32, obj: Ptr)
    requires cfg.Valid() && cfg.stackCollection && obj.At?
    requires size + cfg.allocMetaSize + cfg.freeMetaSize <= cfg.kmallocMaxSize
    ensures var p := PlanCache(cfg, c, KasanInfo(0, 0), size);
      GetFreeMeta(p.info, obj) ==
        if cfg.mode != Generic then None
        else if NeedsFreeMetaRedzone(cfg, c) then Some(obj.addr + size + cfg.allocMetaSize)
        else Some(obj.addr)
  {
  }

  /**
   * __kasan_metadata_size as written: free metadata is counted whenever its
   * offset is non-zero, which includes the KASAN_NO_FREE_META sentinel.
   */
  function MetadataSizeAsWritten(cfg: Config, info: KasanInfo): (n: nat)
    ensures !cfg.stackCollection ==> n == 0
    ensures n <= cfg.allocMetaSize + cfg.freeMetaSize
  {
    if !cfg.stackCollection then 0
    else
      (if info.allocMetaOffset != 0 then cfg.allocMetaSize else 0) +
      (if info.freeMetaOffset != 0 then cfg.freeMetaSize else 0)
  }

  /**
   * __kasan_metadata_size, corrected: the bytes of metadata kept outside the
   * object, counting free metadata only when it was actually reserved.
   */
  function MetadataSize(cfg: Config, info: KasanInfo): (n: nat)
    ensures !cfg.stackCollection ==> n == 0
    ensures info.freeMetaOffset == KASAN_NO_FREE_META ==> n <= cfg.allocMetaSize
    ensures n <= cfg.allocMetaSize + cfg.freeMetaSize
  {
    if !cfg.stackCollection then 0
    else
      (if info.allocMetaOffset != 0 then cfg.allocMetaSize else 0) +
      (if info.freeMetaOffset != 0 && info.freeMetaOffset != KASAN_NO_FREE_META then cfg.freeMetaSize else 0)
  }

  /**
   * The corrected metadata size is exactly what planning reserved outside the
   * object for a fresh cache whose alloc metadata fits: the free metadata
   * counts only when the generic mode placed it in the redzone.  In the tag
   * modes, where nothing pads the size, it is the whole growth.
   */
  lemma MetadataSizeMatchesPlan(cfg: Config, c: CacheShape, size: U32)
    requires cfg.Valid() && cfg.stackCollection
    requires 0 < size && size + cfg.allocMetaSize <= cfg.kmallocMaxSize
    ensures var p := PlanCache(cfg, c, KasanInfo(0, 0), size);
      && MetadataSize(cfg, p.info) ==
           cfg.allocMetaSize +
           (if cfg.mode == Generic && NeedsFreeMetaRedzone(cfg, c) && size + cfg.allocMetaSize + cfg.freeMetaSize <= cfg.kmallocMaxSize
            then cfg.freeMetaSize else 0)
      && (cfg.mode != Generic ==> MetadataSize(cfg, p.info) == p.size - size)
  {
  }

  /**
   * The discrepancy of the code as written: when the generic mode had to
   * disable the free metadata because it did not fit, the cache has no free
   * metadata, yet the size reported still includes it.
   */
  lemma MetadataSizeAsWrittenOvercounts(cfg: Config, c: CacheShape, size: U32, obj: Ptr)
    requires cfg.Valid() && cfg.stackCollection && cfg.mode == Generic && NeedsFreeMetaRedzone(cfg, c)
    requires obj.At? && 0 < size
    requires size + cfg.allocMetaSize <= cfg.kmallocMaxSize < size + cfg.allocMetaSize + cfg.freeMetaSize
    ensures var p := PlanCache(cfg, c, KasanInfo(0, 0), size);
      && GetFreeMeta(p.info, obj) == None
      && MetadataSizeAsWritten(cfg, p.info) == cfg.allocMetaSize + cfg.freeMetaSize
      && MetadataSize(cfg, p.info) == cfg.allocMetaSize
  {
  }

  /** __kasan_never_merge: sanitized caches are not merged while stack collection is on. */
  function NeverMerge(cfg: Config): (flags: set<SlabFlag>)
    ensures SlabKasan in flags <==> cfg.stackCollection
    ensures flags <= {SlabKasan}
  {
    if cfg.stackCollection then {SlabKasan} else {}
  }

  /** A struct kmem_cache as far as this layer sees it; only kasan_info is written, at creation. */
  class KmemCache {
    const objectSize: U32
    const hasCtor: bool
    const flags: set<SlabFlag>
    var kasanInfo: KasanInfo

    /** A fresh, zero-initialised cache. */
    constructor (objectSize: U32, hasCtor: bool, flags: set<SlabFlag>)
      ensures this.objectSize == objectSize && this.hasCtor == hasCtor && this.flags == flags
      ensures kasanInfo == KasanInfo(0, 0)
    {
      this.objectSize := objectSize;
      this.hasCtor := hasCtor;
      this.flags := flags;
      kasanInfo := KasanInfo(0, 0);
    }

    function Shape(): CacheShape
    {
      CacheShape(objectSize, hasCtor, SlabTypesafeByRcu in flags)
    }

    /**
     * __kasan_cache_create: marks the cache as sanitized and, with stack
     * collection, grows the size step by step, rolling a step back when it
     * would pass KMALLOC_MAX_SIZE.
     */
    method CacheCreate(cfg: Config, size: U32, slabFlags: set<SlabFlag>) returns (newSize: U32, newFlags: set<SlabFlag>)
      requires cfg.Valid()
      modifies this
      ensures newFlags == slabFlags + {SlabKasan}
      ensures Plan(kasanInfo, newSize) == PlanCache(cfg, Shape(), old(kasanInfo), size)
      ensures !cfg.stackCollection ==> newSize == size && kasanInfo == old(kasanInfo)
    {
      newFlags := slabFlags + {SlabKasan};
      newSize := size;
      if !cfg.stackCollection {
        return;
      }

      var okSize := newSize;
      // Add alloc meta into the redzone, unless it does not fit.
      kasanInfo := kasanInfo.(allocMetaOffset := newSize);
      newSize := AddU32(newSize, cfg.allocMetaSize);
      if newSize > cfg.kmallocMaxSize {
        kasanInfo := kasanInfo.(allocMetaOffset := 0);
        newSize := okSize;
      }

      // Only the generic mode uses free meta or flexible redzones.
      if cfg.mode != Generic {
        kasanInfo := kasanInfo.(freeMetaOffset := KASAN_NO_FREE_META);
        return;
      }

      if SlabTypesafeByRcu in flags || hasCtor || objectSize < cfg.freeMetaSize {
        okSize := newSize;
        kasanInfo := kasanInfo.(freeMetaOffset := newSize);
        newSize := AddU32(newSize, cfg.freeMetaSize);
        if newSize > cfg.kmallocMaxSize {
          kasanInfo := kasanInfo.(freeMetaOffset := KASAN_NO_FREE_META);
          newSize := okSize;
        }
      }

      var optimalSize := AddU32(objectSize, OptimalRedzone(objectSize));
      if optimalSize > cfg.kmallocMaxSize {
        optimalSize := cfg.kmallocMaxSize;
      }
      if newSize < optimalSize {
        newSize := optimalSize;
      }
    }
  }
}
