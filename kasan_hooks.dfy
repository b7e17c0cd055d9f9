/**
 * The allocator hooks of mm/kasan/common.c: object initialisation, the slab
 * free path with its invalid-free checks and quarantine hand-off, the kmalloc
 * paths that unpoison the requested bytes and poison the redzone, the
 * page-level hooks, and the per-task reporting depth.
 *
 * All state the hooks touch lives in one context object: the shadow memory,
 * the quarantine (a sequence that kasan_quarantine_put appends to), the
 * metadata records, the page tags and the invalid-free reports handed to
 * kasan_report_invalid_free.
 */
module KasanHooks {
  import opened KernelTypes
  import opened KasanConfig
  import opened KasanShadow
  import opened KasanLayout
  import opened KasanTags

  /** kasan_set_track: the pid of the current task and a stack-depot handle. */
  datatype Track = Track(pid: int, stack: nat)

  /** What kasan_set_free_info records for a freed object. */
  datatype FreeInfo = FreeInfo(track: Track, tag: U8)

  datatype QuarantineEntry = QuarantineEntry(cache: KmemCache, addr: nat)

  /** A call of kasan_report_invalid_free(ptr, ip). */
  datatype Report = InvalidFree(ptr: Ptr, ip: nat)

  /**
   * Answers of collaborators outside this model for one hook call:
   * is_kfence_address, nearest_obj, obj_to_index, kasan_random_tag, the
   * current pid with the captured stack, and the verdict of
   * kasan_quarantine_put.
   */
  datatype Collab = Collab(
    isKfence: bool,
    nearestObj: nat,
    objIndex: nat,
    randomTag: U8,
    track: Track,
    quarantineAccepts: bool)

  /** The head page of an address: page_address, page_size, PageSlab and page->slab_cache. */
  datatype HeadPage = HeadPage(address: nat, size: nat, isSlab: bool, slabCache: KmemCache?)

  /** A struct page handed to the page hooks: its frame number, address, PageHighMem and compound order. */
  datatype Page = Page(pfn: nat, address: nat, highMem: bool, compoundOrder: nat)

  function Pow2(n: nat): (r: nat)
    ensures r >= 1
  {
    if n == 0 then 1 else 2 * Pow2(n - 1)
  }

  class Kasan {
    const cfg: Config
    var shadow: Shadow
    var quarantine: seq<QuarantineEntry>
    /** Calls of kasan_quarantine_reduce (its effect on the quarantine is not part of this model). */
    var reductions: nat
    /** Alloc metadata records, by the address kasan_get_alloc_meta returns. */
    var allocTracks: map<nat, Track>
    /** Free metadata records, by object address. */
    var freeInfo: map<nat, FreeInfo>
    /** page_kasan_tag of each page frame. */
    var pageTags: map<nat, U8>
    var reports: seq<Report>

    constructor (cfg: Config, shadow: Shadow)
      requires cfg.Valid()
      ensures this.cfg == cfg && this.shadow == shadow
      ensures quarantine == [] && reductions == 0 && reports == []
      ensures allocTracks == map[] && freeInfo == map[] && pageTags == map[]
    {
      this.cfg := cfg;
      this.shadow := shadow;
      quarantine := [];
      reductions := 0;
      allocTracks := map[];
      freeInfo := map[];
      pageTags := map[];
      reports := [];
    }

    /** __kasan_unpoison_range. */
    method UnpoisonRange(address: Ptr, size: nat)
      requires address.At?
      modifies this`shadow
      ensures shadow == old(shadow).Unpoison(address.addr, size)
      ensures forall a :: address.addr <= a < address.addr + size ==> shadow.Check(a)
    {
      shadow := shadow.Unpoison(address.addr, size);
    }

    /** __kasan_unpoison_object_data: the whole object becomes accessible. */
    method UnpoisonObjectData(cache: KmemCache, obj: Ptr)
      requires obj.At?
      modifies this`shadow
      ensures shadow == old(shadow).Unpoison(obj.addr, cache.objectSize)
    {
      shadow := shadow.Unpoison(obj.addr, cache.objectSize);
    }

    /** __kasan_poison_object_data: the whole object becomes a redzone. */
    method PoisonObjectData(cache: KmemCache, obj: Ptr)
      requires obj.At?
      modifies this`shadow
      ensures shadow == old(shadow).Poison(obj.addr, cache.objectSize, KmallocRedzone)
    {
      shadow := shadow.Poison(obj.addr, cache.objectSize, KmallocRedzone);
    }

    /**
     * __kasan_init_slab_obj: zero the alloc metadata (when collected) and give
     * the object its creation-time tag.
     */
    method InitSlabObj(cache: KmemCache, obj: Ptr, env: Collab) returns (r: Ptr)
      requires cfg.Valid() && obj.At?
      modifies this`allocTracks
      ensures r == SetTag(cfg, obj, AssignTag(cfg, cache.Shape(), obj.tag, env.objIndex, true, false, env.randomTag))
      ensures var m := GetAllocMeta(cache.kasanInfo, obj);
        allocTracks == if cfg.stackCollection && m.Some? then old(allocTracks)[m.value := Track(0, 0)] else old(allocTracks)
    {
      if cfg.stackCollection {
        var m := GetAllocMeta(cache.kasanInfo, obj);
        if m.Some? {
          allocTracks := allocTracks[m.value := Track(0, 0)];
        }
      }
      r := SetTag(cfg, obj, AssignTag(cfg, cache.Shape(), obj.tag, env.objIndex, true, false, env.randomTag));
    }

    /**
     * The effect of ____kasan_slab_free(cache, obj, ip, useQuarantine), path by
     * path; `r` is its result (true: the object must not go back to the slab now).
     */
    twostate predicate SlabFreeDone(cache: KmemCache, obj: Ptr, ip: nat, useQuarantine: bool, env: Collab, r: bool)
      requires obj.At?
      reads this, cache
    {
      var addr := obj.addr;
      if env.isKfence then
        // kfence objects are not handled here.
        && !r && shadow == old(shadow) && reports == old(reports)
        && freeInfo == old(freeInfo) && quarantine == old(quarantine)
      else if env.nearestObj != addr || (SlabTypesafeByRcu !in cache.flags && !old(shadow).Check(addr)) then
        // A pointer inside an object, or a double free: report and touch nothing else.
        && r && reports == old(reports) + [InvalidFree(obj, ip)]
        && shadow == old(shadow) && freeInfo == old(freeInfo) && quarantine == old(quarantine)
      else if SlabTypesafeByRcu in cache.flags then
        // RCU objects may be read during the grace period: no poisoning.
        && !r && shadow == old(shadow) && reports == old(reports)
        && freeInfo == old(freeInfo) && quarantine == old(quarantine)
      else
        && reports == old(reports)
        && shadow == old(shadow).Poison(addr, cache.objectSize, KmallocFree)
        && if !cfg.stackCollection || (cfg.mode == Generic && !useQuarantine) then
             !r && freeInfo == old(freeInfo) && quarantine == old(quarantine)
           else
             && freeInfo == old(freeInfo)[addr := FreeInfo(env.track, obj.tag)]
             && r == env.quarantineAccepts
             && quarantine == old(quarantine) + (if env.quarantineAccepts then [QuarantineEntry(cache, addr)] else [])
    }

    /** ____kasan_slab_free. */
    method SlabFreeCommon(cache: KmemCache, obj: Ptr, ip: nat, useQuarantine: bool, env: Collab) returns (r: bool)
      requires obj.At?
      modifies this`shadow, this`reports, this`freeInfo, this`quarantine
      ensures SlabFreeDone(cache, obj, ip, useQuarantine, env, r)
      // Only a valid, live, non-RCU object is poisoned, and then exactly its object_size bytes.
      ensures shadow != old(shadow) ==>
        && !env.isKfence && env.nearestObj == obj.addr && SlabTypesafeByRcu !in cache.flags
        && old(shadow).Check(obj.addr)
        && forall a :: obj.addr <= a < obj.addr + cache.objectSize ==> shadow.state(a) == Poisoned(KmallocFree)
      // Entering the quarantine needs stack collection, and in the generic mode the caller's consent.
      ensures |quarantine| > |old(quarantine)| ==> cfg.stackCollection && (cfg.mode == Generic ==> useQuarantine)
    {
      var tag := obj.tag;
      var addr := obj.addr;

      if env.isKfence {
        return false;
      }

      if env.nearestObj != addr {
        reports := reports + [InvalidFree(obj, ip)];
        return true;
      }

      // RCU slabs could be legally used after free within the RCU period.
      if SlabTypesafeByRcu in cache.flags {
        return false;
      }

      if !shadow.Check(addr) {
        reports := reports + [InvalidFree(obj, ip)];
        return true;
      }

      shadow := shadow.Poison(addr, cache.objectSize, KmallocFree);

      if !cfg.stackCollection {
        return false;
      }

      if cfg.mode == Generic && !useQuarantine {
        return false;
      }

      freeInfo := freeInfo[addr := FreeInfo(env.track, tag)];

      r := env.quarantineAccepts;
      if r {
        quarantine := quarantine + [QuarantineEntry(cache, addr)];
      }
    }

    /** __kasan_slab_free: the slab free path, with quarantine. */
    method SlabFree(cache: KmemCache, obj: Ptr, ip: nat, env: Collab) returns (r: bool)
      requires obj.At?
      modifies this`shadow, this`reports, this`freeInfo, this`quarantine
      ensures SlabFreeDone(cache, obj, ip, true, env, r)
    {
      r := SlabFreeCommon(cache, obj, ip, true, env);
    }

    /**
     * __kasan_slab_free_mempool: a page-backed element must be its page's first
     * byte and then has the whole page poisoned; a slab element takes the slab
     * free path without quarantine.
     */
    method SlabFreeMempool(ptr: Ptr, ip: nat, head: HeadPage, env: Collab)
      requires ptr.At?
      requires head.isSlab ==> head.slabCache != null
      modifies this`shadow, this`reports, this`freeInfo, this`quarantine
      ensures !head.isSlab && ptr.addr != head.address ==>
        && reports == old(reports) + [InvalidFree(ptr, ip)]
        && shadow == old(shadow) && freeInfo == old(freeInfo) && quarantine == old(quarantine)
      ensures !head.isSlab && ptr.addr == head.address ==>
        && shadow == old(shadow).Poison(ptr.addr, head.size, FreePage)
        && reports == old(reports) && freeInfo == old(freeInfo) && quarantine == old(quarantine)
      ensures head.isSlab ==> exists r :: SlabFreeDone(head.slabCache, ptr, ip, false, env, r)
    {
      if !head.isSlab {
        if ptr.addr != head.address {
          reports := reports + [InvalidFree(ptr, ip)];
          return;
        }
        shadow := shadow.Poison(ptr.addr, head.size, FreePage);
      } else {
        var r := SlabFreeCommon(head.slabCache, ptr, ip, false, env);
      }
    }

    /**
     * The effect of ____kasan_kmalloc(cache, obj, size, flags, keepTag): the
     * requested bytes become accessible, the rest of the object up to the
     * granule boundary after object_size becomes a redzone, and the pointer
     * gets its tag.
     */
    twostate predicate KmallocDone(cache: KmemCache, obj: Ptr, size: nat, mayBlock: bool, keepTag: bool, env: Collab, r: Ptr)
      requires cfg.Valid()
      reads this, cache
    {
      && reductions == old(reductions) + (if mayBlock then 1 else 0)
      && (obj.Null? ==> r.Null? && shadow == old(shadow) && allocTracks == old(allocTracks))
      && (obj.At? && env.isKfence ==> r == obj && shadow == old(shadow) && allocTracks == old(allocTracks))
      && (obj.At? && !env.isKfence ==>
            var tag := AssignTag(cfg, cache.Shape(), obj.tag, env.objIndex, false, keepTag, env.randomTag);
            var redzoneStart := RoundUp(obj.addr + size, cfg.granule);
            var redzoneEnd := RoundUp(obj.addr + cache.objectSize, cfg.granule);
            var m := GetAllocMeta(cache.kasanInfo, obj);
            && r == SetTag(cfg, obj, tag)
            && shadow == old(shadow).Unpoison(obj.addr, size).Poison(redzoneStart, (redzoneEnd as int) - redzoneStart, KmallocRedzone)
            && (forall a :: obj.addr <= a < obj.addr + size ==> shadow.Check(a))
            && (forall a :: redzoneStart <= a < redzoneEnd ==> shadow.state(a) == Poisoned(KmallocRedzone))
            && allocTracks == if cfg.stackCollection && m.Some? then old(allocTracks)[m.value := env.track] else old(allocTracks))
    }

    /** ____kasan_kmalloc. */
    method KmallocCommon(cache: KmemCache, obj: Ptr, size: nat, mayBlock: bool, keepTag: bool, env: Collab) returns (r: Ptr)
      requires cfg.Valid() && !obj.ZeroSizePtr?
      modifies this`shadow, this`allocTracks, this`reductions
      ensures KmallocDone(cache, obj, size, mayBlock, keepTag, env, r)
    {
      if mayBlock {
        reductions := reductions + 1;
      }

      if obj.Null? {
        return Null;
      }

      if env.isKfence {
        return obj;
      }

      var redzoneStart := RoundUp(obj.addr + size, cfg.granule);
      var redzoneEnd := RoundUp(obj.addr + cache.objectSize, cfg.granule);
      var tag := AssignTag(cfg, cache.Shape(), obj.tag, env.objIndex, false, keepTag, env.randomTag);

      shadow := shadow.Unpoison(obj.addr, size);
      shadow := shadow.Poison(redzoneStart, (redzoneEnd as int) - redzoneStart, KmallocRedzone);

      if cfg.stackCollection {
        var m := GetAllocMeta(cache.kasanInfo, obj);
        if m.Some? {
          allocTracks := allocTracks[m.value := env.track];
        }
      }

      r := SetTag(cfg, obj, tag);
    }

    /** __kasan_slab_alloc: the whole object is requested and a new tag is chosen. */
    method SlabAlloc(cache: KmemCache, obj: Ptr, mayBlock: bool, env: Collab) returns (r: Ptr)
      requires cfg.Valid() && !obj.ZeroSizePtr?
      modifies this`shadow, this`allocTracks, this`reductions
      ensures KmallocDone(cache, obj, cache.objectSize, mayBlock, false, env, r)
    {
      r := KmallocCommon(cache, obj, cache.objectSize, mayBlock, false, env);
    }

    /** __kasan_kmalloc: `size` bytes are requested and the slab-alloc tag is kept. */
    method Kmalloc(cache: KmemCache, obj: Ptr, size: nat, mayBlock: bool, env: Collab) returns (r: Ptr)
      requires cfg.Valid() && !obj.ZeroSizePtr?
      modifies this`shadow, this`allocTracks, this`reductions
      ensures KmallocDone(cache, obj, size, mayBlock, true, env, r)
    {
      r := KmallocCommon(cache, obj, size, mayBlock, true, env);
    }

    /**
     * The effect of __kasan_kmalloc_large(ptr, size, flags) for a pointer whose
     * page is `page`: the requested bytes become accessible and the rest of the
     * page, from the next granule boundary, becomes a page redzone.
     */
    twostate predicate KmallocLargeDone(ptr: Ptr, size: nat, mayBlock: bool, page: HeadPage, r: Ptr)
      requires cfg.Valid()
      reads this
    {
      && reductions == old(reductions) + (if mayBlock then 1 else 0)
      && r == ptr
      && (ptr.Null? ==> shadow == old(shadow))
      && (ptr.At? ==>
            var redzoneStart := RoundUp(ptr.addr + size, cfg.granule);
            var redzoneEnd := ptr.addr + page.size;
            && shadow == old(shadow).Unpoison(ptr.addr, size).Poison(redzoneStart, (redzoneEnd as int) - redzoneStart, PageRedzone)
            && (forall a :: ptr.addr <= a < ptr.addr + size ==> shadow.Check(a))
            && (forall a :: redzoneStart <= a < redzoneEnd ==> shadow.state(a) == Poisoned(PageRedzone)))
    }

    /** __kasan_kmalloc_large. */
    method KmallocLarge(ptr: Ptr, size: nat, mayBlock: bool, page: HeadPage) returns (r: Ptr)
      requires cfg.Valid() && !ptr.ZeroSizePtr?
      modifies this`shadow, this`reductions
      ensures KmallocLargeDone(ptr, size, mayBlock, page, r)
    {
      if mayBlock {
        reductions := reductions + 1;
      }

      if ptr.Null? {
        return Null;
      }

      var redzoneStart := RoundUp(ptr.addr + size, cfg.granule);
      var redzoneEnd := ptr.addr + page.size;

      shadow := shadow.Unpoison(ptr.addr, size);
      shadow := shadow.Poison(redzoneStart, (redzoneEnd as int) - redzoneStart, PageRedzone);
      r := ptr;
    }

    /**
     * __kasan_krealloc: ZERO_SIZE_PTR passes through untouched; a page-backed
     * object takes the large path, a slab object the kmalloc path with its tag
     * kept.
     */
    method Krealloc(obj: Ptr, size: nat, mayBlock: bool, head: HeadPage, env: Collab) returns (r: Ptr)
      requires cfg.Valid() && !obj.Null?
      requires head.isSlab ==> head.slabCache != null
      modifies this`shadow, this`allocTracks, this`reductions
      ensures obj.ZeroSizePtr? ==> r == obj && shadow == old(shadow) && allocTracks == old(allocTracks) && reductions == old(reductions)
      ensures obj.At? && !head.isSlab ==> KmallocLargeDone(obj, size, mayBlock, head, r) && allocTracks == old(allocTracks)
      ensures obj.At? && head.isSlab ==> KmallocDone(head.slabCache, obj, size, mayBlock, true, env, r)
    {
      if obj.ZeroSizePtr? {
        return obj;
      }

      if !head.isSlab {
        r := KmallocLarge(obj, size, mayBlock, head);
      } else {
        r := KmallocCommon(head.slabCache, obj, size, mayBlock, true, env);
      }
    }

    /** __kasan_kfree_large: report a pointer that is not its page's start; never poison. */
    method KfreeLarge(ptr: Ptr, ip: nat, head: HeadPage)
      requires ptr.At?
      modifies this`reports
      ensures reports == old(reports) + (if ptr.addr != head.address then [InvalidFree(ptr, ip)] else [])
    {
      if ptr.addr != head.address {
        reports := reports + [InvalidFree(ptr, ip)];
      }
    }

    /** __kasan_check_byte: true exactly when the byte is accessible; otherwise reported. */
    method CheckByte(address: Ptr, ip: nat) returns (ok: bool)
      requires address.At?
      modifies this`reports
      ensures ok <==> shadow.Check(address.addr)
      ensures reports == old(reports) + (if ok then [] else [InvalidFree(address, ip)])
    {
      if !shadow.Check(address.addr) {
        reports := reports + [InvalidFree(address, ip)];
        return false;
      }
      return true;
    }

    /**
     * __kasan_alloc_pages: every one of the 1 << order pages gets the same
     * random tag and the pages' memory becomes accessible; highmem is skipped.
     */
    method AllocPages(page: Page, order: nat, randomTag: U8)
      modifies this`pageTags, this`shadow
      ensures page.highMem ==> pageTags == old(pageTags) && shadow == old(shadow)
      ensures !page.highMem ==>
        && (forall p :: page.pfn <= p < page.pfn + Pow2(order) ==> p in pageTags && pageTags[p] == randomTag)
        && (forall p :: !(page.pfn <= p < page.pfn + Pow2(order)) ==>
              (p in pageTags <==> p in old(pageTags)) && (p in pageTags ==> pageTags[p] == old(pageTags)[p]))
        && shadow == old(shadow).Unpoison(page.address, cfg.pageSize * Pow2(order))
    {
      if page.highMem {
        return;
      }

      var tag := randomTag;
      var n := Pow2(order);
      var i := 0;
      while i < n
        invariant 0 <= i <= n
        invariant shadow == old(shadow)
        invariant forall p :: page.pfn <= p < page.pfn + i ==> p in pageTags && pageTags[p] == tag
        invariant forall p :: !(page.pfn <= p < page.pfn + i) ==>
          (p in pageTags <==> p in old(pageTags)) && (p in pageTags ==> pageTags[p] == old(pageTags)[p])
      {
        pageTags := pageTags[page.pfn + i := tag];
        i := i + 1;
      }
      shadow := shadow.Unpoison(page.address, cfg.pageSize * n);
    }

    /** __kasan_free_pages: the pages' memory is poisoned as freed; highmem is skipped. */
    method FreePages(page: Page, order: nat)
      modifies this`shadow
      ensures shadow == if page.highMem then old(shadow) else old(shadow).Poison(page.address, cfg.pageSize * Pow2(order), FreePage)
    {
      if !page.highMem {
        shadow := shadow.Poison(page.address, cfg.pageSize * Pow2(order), FreePage);
      }
    }

    /**
     * __kasan_poison_slab: every page of the compound page gets its tag reset to
     * KASAN_TAG_KERNEL and the whole slab becomes a redzone.
     */
    method PoisonSlab(page: Page)
      modifies this`pageTags, this`shadow
      ensures forall p :: page.pfn <= p < page.pfn + Pow2(page.compoundOrder) ==> p in pageTags && pageTags[p] == KASAN_TAG_KERNEL
      ensures forall p :: !(page.pfn <= p < page.pfn + Pow2(page.compoundOrder)) ==>
        (p in pageTags <==> p in old(pageTags)) && (p in pageTags ==> pageTags[p] == old(pageTags)[p])
      ensures shadow == old(shadow).Poison(page.address, cfg.pageSize * Pow2(page.compoundOrder), KmallocRedzone)
    {
      var n := Pow2(page.compoundOrder);
      var i := 0;
      while i < n
        invariant 0 <= i <= n
        invariant shadow == old(shadow)
        invariant forall p :: page.pfn <= p < page.pfn + i ==> p in pageTags && pageTags[p] == KASAN_TAG_KERNEL
        invariant forall p :: !(page.pfn <= p < page.pfn + i) ==>
          (p in pageTags <==> p in old(pageTags)) && (p in pageTags ==> pageTags[p] == old(pageTags)[p])
      {
        pageTags := pageTags[page.pfn + i := KASAN_TAG_KERNEL];
        i := i + 1;
      }
      shadow := shadow.Poison(page.address, cfg.pageSize * n, KmallocRedzone);
    }

    /**
     * A client of the free path: once a live object of a non-RCU cache has
     * been freed, freeing it again is reported as an invalid free and changes
     * neither the shadow, nor the free info, nor the quarantine: the final
     * state is the one the first free left.
     */
    method FreeTwice(cache: KmemCache, obj: Ptr, ip: nat, env: Collab) returns (first: bool, second: bool)
      requires obj.At? && cache.objectSize > 0
      requires !env.isKfence && env.nearestObj == obj.addr && SlabTypesafeByRcu !in cache.flags
      requires shadow.Check(obj.addr)
      modifies this`shadow, this`reports, this`freeInfo, this`quarantine
      ensures second
      ensures reports == old(reports) + [InvalidFree(obj, ip)]
      ensures shadow == old(shadow).Poison(obj.addr, cache.objectSize, KmallocFree)
      ensures first == (cfg.stackCollection && env.quarantineAccepts)
      ensures freeInfo == if cfg.stackCollection then old(freeInfo)[obj.addr := FreeInfo(env.track, obj.tag)] else old(freeInfo)
      ensures quarantine == old(quarantine) + (if cfg.stackCollection && env.quarantineAccepts then [QuarantineEntry(cache, obj.addr)] else [])
    {
      first := SlabFree(cache, obj, ip, env);
      second := SlabFree(cache, obj, ip, env);
    }
  }

  /** current->kasan_depth, an unsigned int: non-zero means reports are suppressed. */
  class Task {
    var kasanDepth: U32

    constructor (depth: U32)
      ensures kasanDepth == depth
    {
      kasanDepth := depth;
    }

    /** kasan_enable_current: current->kasan_depth++. */
    method EnableCurrent()
      modifies this
      ensures kasanDepth == AddU32(old(kasanDepth), 1)
    {
      kasanDepth := AddU32(kasanDepth, 1);
    }

    /** kasan_disable_current: current->kasan_depth--, wrapping below zero. */
    method DisableCurrent()
      modifies this
      ensures kasanDepth == AddU32(old(kasanDepth), U32_LIMIT - 1)
      ensures old(kasanDepth) == 0 ==> kasanDepth == U32_LIMIT - 1
    {
      kasanDepth := AddU32(kasanDepth, U32_LIMIT - 1);
    }

    /** A disable/enable pair leaves the depth as it was, even from zero. */
    method DisableThenEnable()
      modifies this
      ensures kasanDepth == old(kasanDepth)
    {
      DisableCurrent();
      EnableCurrent();
    }
  }
}
