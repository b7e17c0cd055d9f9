/**
 * The tag policy of mm/kasan/common.c:262-309 and the pointer-tag helpers it
 * relies on.  Collaborator answers (the object's current tag, its slab index,
 * a random tag) are parameters.
 */
module KasanTags {
  import opened KernelTypes
  import opened KasanConfig
  import opened KasanLayout

  /**
   * assign_tag(cache, object, init, keep_tag): `objectTag` is get_tag(object),
   * `objIndex` is obj_to_index() of the object in its slab, and `randomTag` is
   * the value kasan_random_tag() would return.
   */
  function AssignTag(cfg: Config, c: CacheShape, objectTag: U8, objIndex: nat,
                     init: bool, keepTag: bool, randomTag: U8): (t: U8)
    // The generic mode does not use tags: the match-all tag.
    ensures cfg.mode == Generic ==> t == TAG_MATCH_ALL
    // keep_tag wins over every cache property.
    ensures cfg.mode != Generic && keepTag ==> t == objectTag
    // Plain caches: the kernel tag while the slab is built, a fresh tag per allocation.
    ensures cfg.mode != Generic && !keepTag && !c.hasCtor && !c.typesafeByRcu ==>
      t == (if init then KASAN_TAG_KERNEL else randomTag)
    // Constructor or RCU caches: SLAB derives the tag from the slot, SLUB tags once at creation.
    ensures cfg.mode != Generic && !keepTag && (c.hasCtor || c.typesafeByRcu) ==>
      t == (if cfg.allocator == Slab then objIndex % 0x100 else if init then randomTag else objectTag)
  {
    if cfg.mode == Generic then TAG_MATCH_ALL
    else if keepTag then objectTag
    else if !c.hasCtor && !c.typesafeByRcu then (if init then KASAN_TAG_KERNEL else randomTag)
    else if cfg.allocator == Slab then objIndex % 0x100
    else if init then randomTag
    else objectTag
  }

  /** set_tag: only the tag-based modes put a tag into the pointer. */
  function SetTag(cfg: Config, p: Ptr, tag: U8): (r: Ptr)
    ensures r.At? <==> p.At?
    ensures r.At? ==> r.addr == p.addr
    ensures r.At? && cfg.mode != Generic ==> r.tag == tag
    ensures cfg.mode == Generic ==> r == p
  {
    if cfg.mode != Generic && p.At? then At(p.addr, tag) else p
  }

  /**
   * Objects of a constructor or RCU cache keep, at every allocation, the tag
   * they were given when the slab was built (provided the pointer still carries
   * it), whatever random tags are drawn.
   */
  lemma IdentityCacheTagStable(cfg: Config, c: CacheShape, anyTag: U8, objIndex: nat, r0: U8, r1: U8)
    requires c.hasCtor || c.typesafeByRcu
    ensures var t0 := AssignTag(cfg, c, anyTag, objIndex, true, false, r0);
      AssignTag(cfg, c, t0, objIndex, false, false, r1) == t0
  {
  }

  /** Under SLAB, neighbouring slots of an identity-sensitive cache get different tags. */
  lemma SlabNeighboursDiffer(cfg: Config, c: CacheShape, tag: U8, i: nat, init: bool, r0: U8, r1: U8)
    requires cfg.mode != Generic && cfg.allocator == Slab && (c.hasCtor || c.typesafeByRcu)
    ensures AssignTag(cfg, c, tag, i, init, false, r0) != AssignTag(cfg, c, tag, i + 1, init, false, r1)
  {
  }

  /**
   * kmalloc and krealloc re-tag with keep_tag, so the tag chosen by the slab
   * allocation hook survives them.
   */
  lemma KeepTagPreservesAllocationTag(cfg: Config, c: CacheShape, addr: nat, objectTag: U8, objIndex: nat, r0: U8, r1: U8)
    ensures var p := SetTag(cfg, At(addr, objectTag), AssignTag(cfg, c, objectTag, objIndex, false, false, r0));
      SetTag(cfg, p, AssignTag(cfg, c, p.tag, objIndex, false, true, r1)) == p
  {
  }
}
