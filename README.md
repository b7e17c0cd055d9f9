# KASAN allocator hooks and otx2 ethtool configuration, in Dafny

This project models two pieces of the Linux kernel and proves properties of them.

**KASAN allocator hooks** (`mm/kasan/common.c`). The Kernel Address Sanitizer
gets a say at every step of a slab object's life:

- At cache creation, `__kasan_cache_create` grows the object size. It makes
  room for allocation metadata, free metadata and an adaptive redzone, and
  rolls a step back when the size would pass `KMALLOC_MAX_SIZE`.
- When a slab is built, each object is tagged and its metadata zeroed.
- At allocation, the requested bytes are unpoisoned and the tail up to the
  granule-rounded object end is poisoned as a redzone.
- At free, invalid frees (interior pointers, double frees) are reported. A
  valid object is poisoned, its free track is recorded and it may enter the
  quarantine.
- Page-level hooks tag and (un)poison whole page runs.
- A per-task depth counter suppresses reports.

Modules:

- `KasanConfig` holds the build-time configuration: the mode (generic, software
  tags or hardware tags), SLAB or SLUB, stack collection and the sizes.
- `KasanShadow` is the shadow memory, given only through the contracts of
  poison, unpoison and check.
- `KasanLayout` holds the layout planner and the metadata lookups.
- `KasanTags` is the tag policy.
- `KasanHooks` has a `Kasan` context object whose methods are the hooks, and a
  `Task` object for `kasan_depth`.

**otx2 ethtool configuration**
(`drivers/net/ethernet/marvell/octeontx2/nic/otx2_ethtool.c`). These are the
validation and state-update rules of the OcteonTX2 NIC's ethtool operations:

- the translation between RXH_* hash request bits and NIX_FLOW_KEY_TYPE_*
  flow-key bits, in both directions;
- interrupt-coalescing clamp and selection;
- channel and pause-parameter validation;
- first-free-slot allocation of RSS contexts and the bounds of the
  context read;
- the statistics count and the strings table it must agree with.

`Otx2Types` holds the bit vocabularies, `Otx2Rss` the hash-option translation,
`Otx2Stats` the counts and strings, and `Otx2Nic` a `Nic` object holding the
`otx2_nic` fields these operations update.

Calls into code outside the modelled file are parameters of the operation:

- `is_kfence_address`, `nearest_obj`, `obj_to_index`, `kasan_random_tag`,
  the current pid and stack handle, and the verdict of `kasan_quarantine_put`
  (bundled as `Collab`);
- `virt_to_head_page` with `PageSlab`, `page_size` and `page->slab_cache`
  (as `HeadPage`);
- the outcomes of `otx2_set_real_num_queues`, `otx2_config_pause_frm` and
  `kzalloc`.

## Model

| member | source | states |
|---|---|---|
| `KasanLayout.OptimalRedzone` | mm/kasan/common.c:125-135 | The redzone is 16, 32, 64, 128, 256, 512, 1024 or 2048 bytes for object sizes up to 48, 96, 448, 3968, 16128, 32256, 64512 and above; each tier holds exactly on its interval. |
| `KasanLayout.OptimalRedzoneMonotonic` | mm/kasan/common.c:121-135 | A larger object never gets a narrower redzone. |
| `KasanLayout.OptimalSize` | mm/kasan/common.c:202-207 | The optimal size is the object size plus its redzone when that fits under `KMALLOC_MAX_SIZE`, and exactly `KMALLOC_MAX_SIZE` when the sum exceeds it without wrapping u32 (the wrapped sum is computed but not characterised). |
| `KasanLayout.PlanCache` | mm/kasan/common.c:150-210 | The planned layout. Without stack collection nothing changes. Alloc metadata sits at the incoming size inside the final size, or its offset is 0 when it does not fit. Tag modes get `KASAN_NO_FREE_META` and no padding. The generic mode puts free metadata in the redzone only for RCU, constructor or too-small objects, else keeps offset 0, and uses `KASAN_NO_FREE_META` when it does not fit. The generic size is the size after the alloc and free metadata reservations that fit, raised to the optimal size when smaller. The size never shrinks, and stays within `KMALLOC_MAX_SIZE` when it started within it. |
| `KasanLayout.KmemCache.CacheCreate` | mm/kasan/common.c:137-211 | The step-by-step rewrite of `*size`, `*flags` and `kasan_info`, with `ok_size` rollback, ends in exactly the planned layout. `SLAB_KASAN` is always added. With stack collection off, size and offsets are untouched. |
| `KasanLayout.AllocMetaInsideSlot` | mm/kasan/common.c:158-171 | When reserved, the alloc metadata of an object starts at the incoming size and ends inside the final object slot. |
| `KasanLayout.FreeMetaPlacement` | mm/kasan/common.c:173-201 | The free-metadata lookup after planning: none in the tag modes, after the alloc metadata when the redzone is needed, otherwise at the object start. |
| `KasanLayout.GetAllocMeta` | mm/kasan/common.c:223-229 | No alloc metadata exactly when the offset is 0; otherwise the untagged object address plus the offset. |
| `KasanLayout.GetFreeMeta` | mm/kasan/common.c:231-239 | No free metadata exactly when the offset is `KASAN_NO_FREE_META`; otherwise the untagged object address plus the offset. |
| `KasanLayout.MetadataSizeAsWritten` | mm/kasan/common.c:213-221 | The code as written: 0 without stack collection, and never more than both metadata sizes. |
| `KasanLayout.MetadataSize` | mm/kasan/common.c:213-221 | The corrected size: 0 without stack collection, and never counts free metadata whose offset is the disabled sentinel. |
| `KasanLayout.MetadataSizeMatchesPlan` | mm/kasan/common.c:150-221 | For a fresh cache whose alloc metadata fits, the corrected size is the alloc metadata plus the free metadata exactly when the generic mode reserved it. In the tag modes it equals the whole growth of the size. |
| `KasanLayout.MetadataSizeAsWrittenOvercounts` | mm/kasan/common.c:193-221 | When the generic mode disables free metadata because it does not fit, the lookup finds none. The code as written still reports alloc plus free metadata; the corrected size reports the alloc metadata only. |
| `KasanLayout.NeverMerge` | mm/kasan/common.c:89-98 | `SLAB_KASAN` is returned exactly when stack collection is enabled, and no other flag ever is. |
| `KasanTags.AssignTag` | mm/kasan/common.c:276-309 | The tag precedence. The generic mode gets 0xff. Otherwise `keep_tag` returns the pointer's tag. Otherwise a plain cache gets `KASAN_TAG_KERNEL` at init and a random tag at allocation. Otherwise a constructor or RCU cache gets the slot index modulo 256 under SLAB, and under SLUB a random tag at init and the existing tag at allocation. |
| `KasanTags.IdentityCacheTagStable` | mm/kasan/common.c:262-272 | An object of a constructor or RCU cache is allocated with the tag it received when the slab was built, whatever random tags are drawn. |
| `KasanTags.SlabNeighboursDiffer` | mm/kasan/common.c:270-272 | Under SLAB, adjacent objects of such a cache always get different tags. |
| `KasanTags.KeepTagPreservesAllocationTag` | mm/kasan/common.c:289-295 | Re-tagging with `keep_tag`, as kmalloc and krealloc do, leaves the pointer returned by the slab allocation hook unchanged. |
| `KasanHooks.Kasan.UnpoisonRange` | mm/kasan/common.c:61-64 | The range becomes accessible, and the rest of the shadow is untouched. |
| `KasanHooks.Kasan.PoisonSlab` | mm/kasan/common.c:242-250 | Every page of the compound page gets `KASAN_TAG_KERNEL`, other pages keep their tags, and the whole slab is poisoned as a kmalloc redzone. |
| `KasanHooks.Kasan.UnpoisonObjectData` | mm/kasan/common.c:252-255 | `object_size` bytes from the object become accessible. |
| `KasanHooks.Kasan.PoisonObjectData` | mm/kasan/common.c:257-260 | `object_size` bytes from the object are poisoned as a kmalloc redzone. |
| `KasanHooks.Kasan.InitSlabObj` | mm/kasan/common.c:311-326 | The alloc track is zeroed when collected and present. The returned pointer carries the init-time tag. |
| `KasanHooks.Kasan.SlabFreeCommon` | mm/kasan/common.c:328-367 | A kfence address returns false untouched. An interior pointer, or a failed check outside RCU caches, is reported and returns true without poisoning. RCU caches return false untouched. Otherwise exactly `object_size` bytes are poisoned as freed. Free info and quarantine are reached only with stack collection and not (generic and no quarantine), and the result is the quarantine's verdict. |
| `KasanHooks.Kasan.SlabFree` | mm/kasan/common.c:369-372 | The slab free path with quarantine allowed. |
| `KasanHooks.Kasan.FreeTwice` | mm/kasan/common.c:341-350 | Freeing a live object twice reports exactly one invalid free, at the second call. Shadow, free info and quarantine end as the first free left them: poisoned, free info recorded and quarantined only with stack collection, and the first result is the quarantine's verdict. |
| `KasanHooks.Kasan.SlabFreeMempool` | mm/kasan/common.c:374-395 | On a page-backed element: not the page start is reported with nothing poisoned; the page start has the whole page poisoned as a free page. A slab element takes the free path without quarantine. |
| `KasanHooks.Kasan.KmallocCommon` | mm/kasan/common.c:397-437 | A blocking allocation triggers a quarantine reduction. NULL gives NULL and a kfence object comes back unchanged. Otherwise `[object, object+size)` becomes accessible and `[round_up(object+size), round_up(object+object_size))` becomes a kmalloc redzone. The alloc track is stamped when collected, and the pointer gets the assigned tag. |
| `KasanHooks.Kasan.SlabAlloc` | mm/kasan/common.c:439-443 | The kmalloc path over the whole `object_size`, choosing a new tag. |
| `KasanHooks.Kasan.Kmalloc` | mm/kasan/common.c:445-449 | The kmalloc path over `size` bytes, keeping the tag. |
| `KasanHooks.Kasan.KmallocLarge` | mm/kasan/common.c:452-475 | The pointer is returned. The requested bytes become accessible, and from `round_up(ptr+size)` to the page end becomes a page redzone. |
| `KasanHooks.Kasan.Krealloc` | mm/kasan/common.c:477-491 | `ZERO_SIZE_PTR` passes through with no effect. A page-backed object takes the large path; a slab object takes the kmalloc path keeping its tag. |
| `KasanHooks.Kasan.KfreeLarge` | mm/kasan/common.c:493-498 | A pointer that is not its page start is reported. Nothing is ever poisoned. |
| `KasanHooks.Kasan.CheckByte` | mm/kasan/common.c:500-507 | True exactly when the byte is accessible. Otherwise one invalid-free report is added. |
| `KasanHooks.Kasan.AllocPages` | mm/kasan/common.c:100-112 | Highmem is left alone. Otherwise all `1 << order` pages get the same tag, other pages keep theirs, and `PAGE_SIZE << order` bytes become accessible. |
| `KasanHooks.Kasan.FreePages` | mm/kasan/common.c:114-119 | Unless highmem, `PAGE_SIZE << order` bytes are poisoned as a free page. |
| `KasanHooks.Task.EnableCurrent` | mm/kasan/common.c:50-53 | The depth is incremented modulo 2^32. |
| `KasanHooks.Task.DisableCurrent` | mm/kasan/common.c:55-58 | The depth is decremented modulo 2^32: from 0 it becomes `UINT_MAX`. |
| `KasanHooks.Task.DisableThenEnable` | mm/kasan/common.c:50-58 | A disable/enable pair restores the depth, including through the wrap at 0. |
| `Otx2Rss.SetRssHashOpts` | drivers/net/ethernet/marvell/octeontx2/nic/otx2_ethtool.c:465-541 | -EIO when RSS is off. -EINVAL unless both IP source and destination are requested, and -EINVAL for any flow but TCP, UDP, SCTP, IPv4 and IPv6 (AH, ESP and unknown codes included). A port flow takes both L4 halves or neither, and a mix is -EINVAL. On success the VLAN key mirrors `RXH_VLAN`, the protocol key mirrors the L4 request, and every other bit is kept. A valid IPv4/IPv6 request is always accepted and resets the config to exactly IPv4 and IPv6. |
| `Otx2Rss.SetL4Key` | drivers/net/ethernet/marvell/octeontx2/nic/otx2_ethtool.c:493-502 | Accepted exactly when the L4 halves are both set or both clear. The key bit follows "both set", and all other bits are kept. |
| `Otx2Rss.GetRssHashOpts` | drivers/net/ethernet/marvell/octeontx2/nic/otx2_ethtool.c:420-463 | Without an IPv4 or IPv6 key: returns 0 and leaves data as it was. Otherwise data holds only known bits: always IP source and destination, VLAN iff the VLAN key is set, both L4 halves iff the flow's protocol key is set. The return is 0 exactly for named flow types and -EINVAL otherwise, and data is overwritten even then. |
| `Otx2Rss.SetThenGet` | drivers/net/ethernet/marvell/octeontx2/nic/otx2_ethtool.c:420-541 | Setting a port flow and reading it back returns exactly the known bits of the request, provided an IP key is configured. |
| `Otx2Rss.GetThenSet` | drivers/net/ethernet/marvell/octeontx2/nic/otx2_ethtool.c:420-541 | Writing back what was read for a port flow leaves the flow-key configuration unchanged. |
| `Otx2Rss.IpFlowResetReadsAddressesOnly` | drivers/net/ethernet/marvell/octeontx2/nic/otx2_ethtool.c:530-533 | After an IPv4/IPv6 flow is set, every accepted flow type reads back as IP source and destination only. |
| `Otx2Stats.SsetCount` | drivers/net/ethernet/marvell/octeontx2/nic/otx2_ethtool.c:188-201 | -EINVAL for any set but `ETH_SS_STATS`. Otherwise 6 device + 6 driver + 2·(rx+tx) queue + CGX rx + CGX tx + 1 counters. |
| `Otx2Stats.VfSsetCount` | drivers/net/ethernet/marvell/octeontx2/nic/otx2_ethtool.c:914-926 | As the PF count, without the CGX terms. |
| `Otx2Stats.SsetCountMatchesStrings` | drivers/net/ethernet/marvell/octeontx2/nic/otx2_ethtool.c:99-131 | The announced count equals the number of name slots the strings function writes, for the PF and for the VF. |
| `Otx2Stats.PfCountsCgxOnTop` | drivers/net/ethernet/marvell/octeontx2/nic/otx2_ethtool.c:914-926 | The PF count is the VF count plus the CGX rx and tx counters, and is positive. |
| `Otx2Stats.QueueStrings` | drivers/net/ethernet/marvell/octeontx2/nic/otx2_ethtool.c:82-95 | The nested loops append, queue by queue, one slot per queue statistic. |
| `Otx2Stats.QsetStrings` | drivers/net/ethernet/marvell/octeontx2/nic/otx2_ethtool.c:78-97 | Appends all receive-queue names and then all send-queue names, numbered from `qset * rx_queues`: 2·(rx+tx) slots. |
| `Otx2Stats.CopyNames` | drivers/net/ethernet/marvell/octeontx2/nic/otx2_ethtool.c:107-115 | Appends one slot per table entry, in table order. |
| `Otx2Stats.CgxStrings` | drivers/net/ethernet/marvell/octeontx2/nic/otx2_ethtool.c:119-127 | Appends the numbered CGX rx (or tx) slots 0 .. n-1. |
| `Otx2Stats.CommonStrings` | drivers/net/ethernet/marvell/octeontx2/nic/otx2_ethtool.c:104-117 | Device names, then driver names, then queue set 0, as the PF and VF share them. |
| `Otx2Stats.GetStrings` | drivers/net/ethernet/marvell/octeontx2/nic/otx2_ethtool.c:99-131 | Nothing for a set other than `ETH_SS_STATS`. Otherwise the full table: device, driver, queue, CGX rx, CGX tx, `reset_count`. Its length is the announced count. |
| `Otx2Stats.VfGetStrings` | drivers/net/ethernet/marvell/octeontx2/nic/otx2_ethtool.c:871-893 | As the PF strings without CGX. Its length is the VF count. |
| `Otx2Nic.Clamp` | drivers/net/ethernet/marvell/octeontx2/nic/otx2_ethtool.c:377-380 | The result lies in `[lo, hi]`, equals the input inside the range, and equals the nearest bound outside it. |
| `Otx2Nic.ClampCoalesce` | drivers/net/ethernet/marvell/octeontx2/nic/otx2_ethtool.c:377-399 | Usecs are brought into `[1, CQ_TIMER_THRESH_MAX]` and frames into `[1, U16_MAX]`: in-range values stay as given, 0 becomes 1 and a value above the range becomes its upper bound. |
| `Otx2Nic.SelectWait` | drivers/net/ethernet/marvell/octeontx2/nic/otx2_ethtool.c:382-391 | The new shared value is the rx or the tx request. When both differ from the current value it is the smaller. |
| `Otx2Nic.SelectWaitTakesChangedSide` | drivers/net/ethernet/marvell/octeontx2/nic/otx2_ethtool.c:382-391 | When only one side is changed (the other passed back as read), the changed value is taken. |
| `Otx2Nic.SelectWaitSymmetric` | drivers/net/ethernet/marvell/octeontx2/nic/otx2_ethtool.c:389-391 | When both sides change, swapping rx and tx does not change the choice. |
| `Otx2Nic.Nic.SetCoalesce` | drivers/net/ethernet/marvell/octeontx2/nic/otx2_ethtool.c:364-418 | A zero frame count changes nothing. Otherwise the request is clamped and written back. `cq_time_wait` and `cq_ecount_wait` take the selected values, which lie in `[1, 25]` and `[1, U16_MAX]`. The return is always 0. |
| `Otx2Nic.Nic.SetChannels` | drivers/net/ethernet/marvell/octeontx2/nic/otx2_ethtool.c:217-247 | A zero count gives -EINVAL. A failed queue resize returns its error. In both cases the queue fields are unchanged. On success rx/tx take the request and `cq_cnt = tx + rx`. |
| `Otx2Nic.Nic.SetPauseparam` | drivers/net/ethernet/marvell/octeontx2/nic/otx2_ethtool.c:270-292 | Autoneg or a loopback VF gives -EOPNOTSUPP with flags unchanged. Otherwise the two pause flags mirror the request, every other flag is kept, and the pause-frame config's result is returned. |
| `Otx2Nic.Nic.SetRssHashOpts` | drivers/net/ethernet/marvell/octeontx2/nic/otx2_ethtool.c:465-541 | The flow-key config is stored exactly when the translation succeeds. Every error path returns a negative errno with the config unchanged. |
| `Otx2Nic.FirstFree` | drivers/net/ethernet/marvell/octeontx2/nic/otx2_ethtool.c:664-669 | No result exactly when every slot is taken. Otherwise the lowest empty slot. |
| `Otx2Nic.FirstFreeFrom` | drivers/net/ethernet/marvell/octeontx2/nic/otx2_ethtool.c:664-667 | The lowest empty slot at or after `from`, or none when all of them are taken. |
| `Otx2Nic.CreateAfterDeleteReuses` | drivers/net/ethernet/marvell/octeontx2/nic/otx2_ethtool.c:647-677 | After a context is deleted, the next creation finds a slot at or below it. |
| `Otx2Nic.Nic.RssCtxCreate` | drivers/net/ethernet/marvell/octeontx2/nic/otx2_ethtool.c:658-677 | -EINVAL with nothing changed when all `MAX_RSS_GROUPS` slots are taken. -ENOMEM with nothing changed when allocation fails. Otherwise the lowest free slot gets a zeroed context and its index is returned. |
| `Otx2Nic.Nic.RssCtxDelete` | drivers/net/ethernet/marvell/octeontx2/nic/otx2_ethtool.c:647-656 | The slot becomes empty, nothing else changes, and the return is 0. |
| `Otx2Nic.DefaultIndir` | drivers/net/ethernet/marvell/octeontx2/nic/otx2_ethtool.c:737-741 | The default table deals the rx queues round-robin, and every entry is a valid queue index. |
| `Otx2Nic.Nic.GetRxfhContext` | drivers/net/ethernet/marvell/octeontx2/nic/otx2_ethtool.c:721-758 | Without an indirection buffer: 0. Default context with RSS off: the round-robin table and no key. Otherwise -ENOENT exactly when the context is ≥ `MAX_RSS_GROUPS` or its slot is empty, with nothing written to the buffers. On success: the first `rss_size` entries of its table, plus the key when asked. |

## Left out

- Shadow memory internals: `kasan_poison`, `kasan_unpoison` and `kasan_check` are given by contract only. Bytes are tracked one by one, so the granule encoding is not part of this model. So are the tail bytes between `object+size` and its granule round-up, and pointer-tag mismatch checks.
- The quarantine: `kasan_quarantine_put` appends to a sequence when its verdict (a parameter) accepts. `kasan_quarantine_reduce` is counted but evicts nothing.
- Stack capture (`kasan_save_stack`, `kasan_set_track`): the track is a parameter. `kasan_set_free_info` is modelled as a record keyed by object address.
- Task-stack unpoisoning (`kasan_unpoison_task_stack`, `kasan_unpoison_task_stack_below`): this is config- and architecture-specific stack code, outside the allocator hooks.
- Address arithmetic is unbounded: pointer wrap-around of `unsigned long` and the int overflow of `1 << order` for huge orders are not modelled.
- `KasanHooks.Kasan.KmallocCommon`: when `size` exceeds `object_size` the C length subtraction would wrap; here a negative length poisons nothing.
- `KasanHooks.Kasan.KmallocLarge`: the same applies when the rounded end passes the page end.
- `KasanHooks.Kasan.SlabFreeMempool` and `KasanHooks.Kasan.Krealloc` use `virt_to_head_page`, and `KasanHooks.Kasan.KmallocLarge` uses `virt_to_page`. The model receives that page as a parameter.
- `KasanLayout.OptimalSize`, `KasanLayout.PlanCache` and `KasanLayout.KmemCache.CacheCreate` do compute the unsigned wrap of `object_size + optimal_redzone` and of `*size` near 2^32. Their postconditions about exact values assume no wrap, and say so in their antecedents; what a wrapped size leads to is not stated.
- `sizeof(struct kasan_free_meta)` in the tag modes is not shown. The model lets it be anything up to 32 bytes. Whether the tag modes also over-report the metadata size depends on it.
- The RCU-grace-period access allowed to `SLAB_TYPESAFE_BY_RCU` objects is not modelled beyond "not poisoned".
- Concurrency: quarantine locking, per-task depth races and atomic statistics reads.
- otx2 device glue is not modelled: mailbox traffic (`otx2_get_pauseparam`, `otx2_config_pause_frm`, `otx2_set_flowkey_cfg`, `otx2_set_rss_key`, `otx2_set_rss_table`), interface restarts, IRQ coalescing register writes, hardware statistics reads, flow add/remove, PTP timestamp info and the ops tables. Where their results decide a return value, they are parameters.
- `otx2_set_ringparam`: it depends on the `Q_SIZE`/`Q_COUNT` macros, which are not part of this model.
- `otx2_set_rxfh_context`: only the create and delete steps it calls are modelled. Its hfunc check, key copy and indirection-table write are not.
- `Otx2Nic.Nic.RssCtxDelete` requires an index below `MAX_RSS_GROUPS`. The driver does not check the index, and an out-of-range delete (memory corruption) is not modelled.
- `otx2_rss_ctx_flow_del`, called by the delete path, is outside the modelled file.
- `Otx2Nic.Nic.GetRxfhContext` does not model the `hfunc` output, which is always `ETH_RSS_HASH_TOP`.
- The `Nic` constructor starts with every RSS context slot empty and RSS enabled. The driver's RSS initialisation (outside the modelled file) also allocates the default context, slot 0. A fresh `Nic` therefore answers -ENOENT for context 0, which the initialised driver never does; the operations are modelled from any valid state, so this only concerns the starting state.
- Field widths of the otx2 queue and coalescing fields are not modelled: `u16` queue counts, and the `u8`/`u16` truncation of `min_t`. The clamped values never reach those widths. Integer overflow of the statistics count is not modelled either.
- `MAX_RSS_GROUPS`, `MAX_RSS_INDIR_TBL_SIZE` and `CGX_RX_STATS_COUNT`/`CGX_TX_STATS_COUNT` are not shown. They are the array length, a field of `Nic`, and parameters. `MAX_RSS_GROUPS` is kept below 256, because the scan counter is a `u8`.
- `CQ_TIMER_THRESH_MAX` is not shown. It is taken as 25, the bound the driver's own comment states.
- `ethtool_rxfh_indir_default` is taken as `index % n_rx_rings`.
- The text `sprintf` writes into each string slot is kept as its parts (queue direction, number, stat name) rather than as formatted bytes.

## Findings

| source | as written | input that shows it | evidently intended | confidence | as-written member | corrected member |
|---|---|---|---|---|---|---|
| mm/kasan/common.c:219-220 | The free metadata is counted whenever `free_meta_offset` is non-zero, and that includes the `KASAN_NO_FREE_META` sentinel. | Generic mode, stack collection on, a cache with a constructor, and an incoming `*size` where the alloc metadata fits under `KMALLOC_MAX_SIZE` but the free metadata does not (possible under SLAB). Cache creation then disables free metadata, yet the reported size includes `sizeof(struct kasan_free_meta)`. | Count free metadata only when it was reserved, i.e. the offset is neither 0 nor `KASAN_NO_FREE_META`. | medium, not executed | `KasanLayout.MetadataSizeAsWrittenOvercounts` | `KasanLayout.MetadataSize` |
