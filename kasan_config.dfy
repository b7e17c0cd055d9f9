/**
 * Build-time configuration and shared vocabulary of the KASAN allocator hooks
 * (mm/kasan/common.c): the detection mode, the slab allocator in use, whether
 * stack collection is on, and the sizes the layout code depends on.  The
 * kernel fixes all of these at build or boot time; here they are one
 * immutable record handed to every operation.
 */
module KasanConfig {
  import opened KernelTypes

  /** The tag the generic mode hands out: it matches every pointer. */
  const TAG_MATCH_ALL: U8 := 0xff

  /** KASAN_TAG_KERNEL (0xFF in kasan.h): the tag of untagged kernel pointers. */
  const KASAN_TAG_KERNEL: U8 := 0xff

  /** KASAN_NO_FREE_META (INT_MAX in kasan.h): free metadata is disabled for a cache. */
  const KASAN_NO_FREE_META: nat := 0x7fff_ffff

  /** CONFIG_KASAN_GENERIC, CONFIG_KASAN_SW_TAGS or CONFIG_KASAN_HW_TAGS. */
  datatype Mode = Generic | SwTags | HwTags

  /** CONFIG_SLAB or CONFIG_SLUB: decides how constructor caches are tagged. */
  datatype SlabAllocator = Slab | Slub

  /**
   * The configuration of one kernel.  `granule` is KASAN_GRANULE_SIZE,
   * `kmallocMaxSize` is KMALLOC_MAX_SIZE, `allocMetaSize` and `freeMetaSize`
   * are sizeof(struct kasan_alloc_meta) and sizeof(struct kasan_free_meta),
   * `pageSize` is PAGE_SIZE; `stackCollection` is the answer of
   * kasan_stack_collection_enabled().
   */
  datatype Config = Config(
    mode: Mode,
    allocator: SlabAllocator,
    stackCollection: bool,
    granule: nat,
    kmallocMaxSize: nat,
    allocMetaSize: nat,
    freeMetaSize: nat,
    pageSize: nat)
  {
    /**
     * Facts the kernel guarantees at build time: the free metadata is at most
     * 32 bytes (the BUILD_BUG_ON at mm/kasan/common.c:235), KMALLOC_MAX_SIZE
     * plus both metadata sizes fits an unsigned int, and no real offset can
     * collide with the KASAN_NO_FREE_META sentinel.
     */
    predicate Valid()
    {
      && granule > 0
      && pageSize > 0
      && allocMetaSize > 0
      && freeMetaSize <= 32
      && kmallocMaxSize + allocMetaSize + freeMetaSize < U32_LIMIT
      && kmallocMaxSize < KASAN_NO_FREE_META
    }
  }


  /** Bits of slab_flags_t that this layer reads or sets; every other bit is abstract. */
  datatype SlabFlag = SlabKasan | SlabTypesafeByRcu | OtherSlabFlag(bit: nat)

  /**
   * A kernel pointer as seen by this layer: NULL, ZERO_SIZE_PTR, or an address
   * with the tag carried in its top byte (ignored by the generic mode).
   */
  datatype Ptr = Null | ZeroSizePtr | At(addr: nat, tag: U8)

  /**
   * round_up(x, g) of the kernel: the least multiple of the granule g that is
   * at least x.  The kernel macro relies on g being a power of two; this is the
   * arithmetic it computes.
   */
  function RoundUp(x: nat, g: nat): (r: nat)
    requires g > 0
    ensures x <= r < x + g
    ensures x % g == 0 ==> r == x
  {
    if x % g == 0 then x
    else
      var q := x / g;
      assert x == q * g + x % g;
      assert (q + 1) * g == q * g + g;
      (q + 1) * g
  }
}
