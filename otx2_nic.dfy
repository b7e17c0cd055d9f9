/**
 * The parts of struct otx2_nic that the ethtool operations of
 * otx2_ethtool.c validate and update in place: queue counts, completion-queue
 * interrupt coalescing, pause flags, RSS state and the table of RSS contexts.
 * Mailbox messages, interface restarts and hardware register writes that
 * follow an update are not part of this model; where their result decides
 * the return value it is a parameter.
 */
module Otx2Nic {
  import opened KernelTypes
  import opened Otx2Types
  import Otx2Rss

  /** CQ_TIMER_THRESH_MAX: cq_time_wait counts 100 ns units in 8 bits, clamped to 25 us. */
  const CQ_TIMER_THRESH_MAX: nat := 25
  const U16_MAX: nat := 0xffff

  /** DEFAULT_RSS_CONTEXT_GROUP: the context that exists without being created. */
  const DEFAULT_RSS_CONTEXT_GROUP: nat := 0

  /** Bits of pfvf->flags; the pause bits are the ones this model touches. */
  datatype NicFlag = RxPauseEnabled | TxPauseEnabled | OtherNicFlag(bit: nat)

  /** The fields of struct ethtool_coalesce the driver reads and rewrites. */
  datatype Coalesce = Coalesce(rxUsecs: U32, txUsecs: U32, rxFrames: U32, txFrames: U32)

  /** struct otx2_rss_ctx: the indirection table of one RSS context. */
  datatype RssCtx = RssCtx(indTbl: seq<nat>)

  /** clamp_t(u32, v, lo, hi). */
  function Clamp(v: nat, lo: nat, hi: nat): (r: nat)
    requires lo <= hi
    ensures lo <= r <= hi
    ensures lo <= v <= hi ==> r == v
    ensures v < lo ==> r == lo
    ensures v > hi ==> r == hi
  {
    if v < lo then lo else if v > hi then hi else v
  }

  /**
   * The choice otx2_set_coalesce makes for a value rx and tx share on one
   * completion queue: keep the side the user changed, and the smaller one when
   * both changed.
   */
  function SelectWait(cur: nat, rx: nat, tx: nat): (r: nat)
    ensures r == rx || r == tx
    ensures cur != rx && cur != tx ==> r <= rx && r <= tx
  {
    if cur == rx then tx
    else if cur == tx then rx
    else if rx <= tx then rx else tx
  }

  /**
   * ethtool reports one value for rx and tx; a request that changes only one of
   * them (the other one is passed back as read) takes the changed value.
   */
  lemma SelectWaitTakesChangedSide(cur: nat, v: nat)
    ensures SelectWait(cur, v, cur) == v
    ensures SelectWait(cur, cur, v) == v
  {
  }

  /** When both sides change, the choice does not depend on which side is rx. */
  lemma SelectWaitSymmetric(cur: nat, rx: nat, tx: nat)
    requires cur != rx && cur != tx
    ensures SelectWait(cur, rx, tx) == SelectWait(cur, tx, rx)
  {
  }

  /** The coalescing request after the driver's clamping, as it writes it back into ethtool_coalesce. */
  function ClampCoalesce(ec: Coalesce): (c: Coalesce)
    ensures 1 <= c.rxUsecs <= CQ_TIMER_THRESH_MAX && 1 <= c.txUsecs <= CQ_TIMER_THRESH_MAX
    ensures 1 <= c.rxFrames <= U16_MAX && 1 <= c.txFrames <= U16_MAX
    ensures 1 <= ec.rxUsecs <= CQ_TIMER_THRESH_MAX ==> c.rxUsecs == ec.rxUsecs
    ensures 1 <= ec.txUsecs <= CQ_TIMER_THRESH_MAX ==> c.txUsecs == ec.txUsecs
    ensures 1 <= ec.rxFrames <= U16_MAX ==> c.rxFrames == ec.rxFrames
    ensures 1 <= ec.txFrames <= U16_MAX ==> c.txFrames == ec.txFrames
    // Out of range, each field takes the nearest bound.
    ensures ec.rxUsecs < 1 ==> c.rxUsecs == 1
    ensures ec.txUsecs < 1 ==> c.txUsecs == 1
    ensures ec.rxFrames < 1 ==> c.rxFrames == 1
    ensures ec.txFrames < 1 ==> c.txFrames == 1
    ensures ec.rxUsecs > CQ_TIMER_THRESH_MAX ==> c.rxUsecs == CQ_TIMER_THRESH_MAX
    ensures ec.txUsecs > CQ_TIMER_THRESH_MAX ==> c.txUsecs == CQ_TIMER_THRESH_MAX
    ensures ec.rxFrames > U16_MAX ==> c.rxFrames == U16_MAX
    ensures ec.txFrames > U16_MAX ==> c.txFrames == U16_MAX
  {
    Coalesce(
      Clamp(ec.rxUsecs, 1, CQ_TIMER_THRESH_MAX), Clamp(ec.txUsecs, 1, CQ_TIMER_THRESH_MAX),
      Clamp(ec.rxFrames, 1, U16_MAX), Clamp(ec.txFrames, 1, U16_MAX))
  }

  /** The lowest free slot of the RSS context table, if any. */
  function FirstFree(slots: seq<Option<RssCtx>>): (r: Option<nat>)
    ensures r.None? <==> forall i :: 0 <= i < |slots| ==> slots[i].Some?
    ensures r.Some? ==> r.value < |slots| && slots[r.value].None?
    ensures r.Some? ==> forall i :: 0 <= i < r.value ==> slots[i].Some?
  {
    FirstFreeFrom(slots, 0)
  }

  function FirstFreeFrom(slots: seq<Option<RssCtx>>, from: nat): (r: Option<nat>)
    requires from <= |slots|
    ensures r.None? <==> forall i :: from <= i < |slots| ==> slots[i].Some?
    ensures r.Some? ==> from <= r.value < |slots| && slots[r.value].None?
    ensures r.Some? ==> forall i :: from <= i < r.value ==> slots[i].Some?
    decreases |slots| - from
  {
    if from == |slots| then None
    else if slots[from].None? then Some(from)
    else FirstFreeFrom(slots, from + 1)
  }

  /** Deleting a context makes the next creation pick that slot or a lower one. */
  lemma CreateAfterDeleteReuses(slots: seq<Option<RssCtx>>, k: nat)
    requires k < |slots|
    ensures FirstFree(slots[k := None]).Some?
    ensures FirstFree(slots[k := None]).value <= k
  {
    assert slots[k := None][k].None?;
  }

  /** ethtool_rxfh_indir_default(i, n) for every entry: queues dealt round-robin. */
  function DefaultIndir(size: nat, rxQueues: nat): (t: seq<nat>)
    requires rxQueues > 0
    ensures |t| == size
    ensures forall i :: 0 <= i < size ==> t[i] < rxQueues && t[i] == i % rxQueues
  {
    seq(size, i => i % rxQueues)
  }

  function ZeroTable(size: nat): (t: seq<nat>)
    ensures |t| == size && forall i :: 0 <= i < size ==> t[i] == 0
  {
    seq(size, _ => 0)
  }

  class Nic {
    /** is_otx2_lbkvf(pfvf->pdev): a loopback VF has no pause frames. */
    const isLbkVf: bool
    /** MAX_RSS_INDIR_TBL_SIZE. */
    const indirTableSize: nat
    /** rss_info.rss_ctx[], MAX_RSS_GROUPS slots; None is a NULL pointer. */
    const rssCtx: array<Option<RssCtx>>

    var rxQueues: nat
    var txQueues: nat
    /** qset.cq_cnt. */
    var cqCnt: nat
    /** hw.cq_time_wait, a u8. */
    var cqTimeWait: nat
    /** hw.cq_ecount_wait, a u16. */
    var cqEcountWait: nat
    var flags: set<NicFlag>
    /** rss_info.enable, rss_info.flowkey_cfg, rss_info.rss_size and rss_info.key. */
    var rssEnable: bool
    var flowkeyCfg: set<FlowKeyBit>
    var rssSize: nat
    var rssKey: seq<nat>

    /**
     * What the driver keeps true of this state: the context scan counts in a
     * u8, the default indirection spreads over at least one queue, the
     * coalescing fields fit their widths, and every context table covers
     * rss_size entries.
     */
    predicate Valid()
      reads this, rssCtx
    {
      && rssCtx.Length < 0x100
      && rxQueues > 0
      && cqTimeWait < 0x100
      && cqEcountWait <= U16_MAX
      && rssSize <= indirTableSize
      && forall i :: 0 <= i < rssCtx.Length && rssCtx[i].Some? ==> |rssCtx[i].value.indTbl| == indirTableSize
    }

    constructor (isLbkVf: bool, maxRssGroups: nat, indirTableSize: nat, rssSize: nat, rxQueues: nat, txQueues: nat)
      requires maxRssGroups < 0x100 && 0 < rxQueues && rssSize <= indirTableSize
      ensures Valid() && fresh(rssCtx)
      ensures this.isLbkVf == isLbkVf && this.indirTableSize == indirTableSize && this.rssSize == rssSize
      ensures rssCtx.Length == maxRssGroups && forall i :: 0 <= i < maxRssGroups ==> rssCtx[i].None?
      ensures this.rxQueues == rxQueues && this.txQueues == txQueues && cqCnt == rxQueues + txQueues
    {
      this.isLbkVf := isLbkVf;
      this.indirTableSize := indirTableSize;
      this.rssSize := rssSize;
      this.rxQueues := rxQueues;
      this.txQueues := txQueues;
      cqCnt := rxQueues + txQueues;
      cqTimeWait := 1;
      cqEcountWait := 1;
      flags := {};
      rssEnable := true;
      flowkeyCfg := {KeyIPv4, KeyIPv6};
      rssKey := [];
      rssCtx := new Option<RssCtx>[maxRssGroups](_ => None);
    }

    /**
     * otx2_set_coalesce: a request with a zero frame count is ignored;
     * otherwise both fields get the clamped values of the side that changed.
     */
    method SetCoalesce(ec: Coalesce) returns (ret: int, ecOut: Coalesce)
      requires Valid()
      modifies this`cqTimeWait, this`cqEcountWait
      ensures Valid() && ret == 0
      ensures ec.rxFrames == 0 || ec.txFrames == 0 ==>
        ecOut == ec && cqTimeWait == old(cqTimeWait) && cqEcountWait == old(cqEcountWait)
      ensures ec.rxFrames != 0 && ec.txFrames != 0 ==>
        && ecOut == ClampCoalesce(ec)
        && cqTimeWait == SelectWait(old(cqTimeWait), ecOut.rxUsecs, ecOut.txUsecs)
        && cqEcountWait == SelectWait(old(cqEcountWait), ecOut.rxFrames, ecOut.txFrames)
        && 1 <= cqTimeWait <= CQ_TIMER_THRESH_MAX && 1 <= cqEcountWait <= U16_MAX
    {
      ecOut := ec;
      if ec.rxFrames == 0 || ec.txFrames == 0 {
        return 0, ecOut;
      }

      ecOut := ecOut.(rxUsecs := Clamp(ecOut.rxUsecs, 1, CQ_TIMER_THRESH_MAX));
      ecOut := ecOut.(txUsecs := Clamp(ecOut.txUsecs, 1, CQ_TIMER_THRESH_MAX));

      if cqTimeWait == ecOut.rxUsecs {
        cqTimeWait := ecOut.txUsecs;
      } else if cqTimeWait == ecOut.txUsecs {
        cqTimeWait := ecOut.rxUsecs;
      } else {
        cqTimeWait := if ecOut.rxUsecs <= ecOut.txUsecs then ecOut.rxUsecs else ecOut.txUsecs;
      }

      ecOut := ecOut.(rxFrames := Clamp(ecOut.rxFrames, 1, U16_MAX));
      ecOut := ecOut.(txFrames := Clamp(ecOut.txFrames, 1, U16_MAX));

      if cqEcountWait == ecOut.rxFrames {
        cqEcountWait := ecOut.txFrames;
      } else if cqEcountWait == ecOut.txFrames {
        cqEcountWait := ecOut.rxFrames;
      } else {
        cqEcountWait := if ecOut.rxFrames <= ecOut.txFrames then ecOut.rxFrames else ecOut.txFrames;
      }
      ret := 0;
    }

    /**
     * otx2_set_channels: both counts must be non-zero; the queue fields change
     * only when otx2_set_real_num_queues (whose result is `realNumQueuesErr`)
     * succeeds.
     */
    method SetChannels(rxCount: U32, txCount: U32, realNumQueuesErr: int) returns (ret: int)
      requires Valid() && realNumQueuesErr <= 0
      modifies this`rxQueues, this`txQueues, this`cqCnt
      ensures Valid()
      ensures ret == 0 <==> rxCount != 0 && txCount != 0 && realNumQueuesErr == 0
      ensures (rxCount == 0 || txCount == 0) ==> ret == -EINVAL
      ensures rxCount != 0 && txCount != 0 ==> ret == realNumQueuesErr
      ensures ret == 0 ==> rxQueues == rxCount && txQueues == txCount && cqCnt == txCount + rxCount
      ensures ret != 0 ==> rxQueues == old(rxQueues) && txQueues == old(txQueues) && cqCnt == old(cqCnt)
    {
      if rxCount == 0 || txCount == 0 {
        return -EINVAL;
      }

      ret := realNumQueuesErr;
      if ret != 0 {
        return;
      }

      rxQueues := rxCount;
      txQueues := txCount;
      cqCnt := txQueues + rxQueues;
    }

    /**
     * otx2_set_pauseparam: autonegotiated pause and loopback VFs are refused;
     * otherwise the two pause flags follow the request before
     * otx2_config_pause_frm (whose result is `configRet`) is asked.
     */
    method SetPauseparam(autoneg: bool, rxPause: bool, txPause: bool, configRet: int) returns (ret: int)
      modifies this`flags
      ensures autoneg || isLbkVf ==> ret == -EOPNOTSUPP && flags == old(flags)
      ensures !autoneg && !isLbkVf ==>
        && ret == configRet
        && (RxPauseEnabled in flags <==> rxPause)
        && (TxPauseEnabled in flags <==> txPause)
        && forall f :: f != RxPauseEnabled && f != TxPauseEnabled ==> (f in flags <==> f in old(flags))
    {
      if autoneg {
        return -EOPNOTSUPP;
      }

      if isLbkVf {
        return -EOPNOTSUPP;
      }

      if rxPause {
        flags := flags + {RxPauseEnabled};
      } else {
        flags := flags - {RxPauseEnabled};
      }

      if txPause {
        flags := flags + {TxPauseEnabled};
      } else {
        flags := flags - {TxPauseEnabled};
      }

      ret := configRet;
    }

    /** otx2_set_rss_hash_opts: the computed configuration is stored only when the request is accepted. */
    method SetRssHashOpts(flow: FlowType, data: set<RxhBit>) returns (ret: int)
      modifies this`flowkeyCfg
      ensures var r := Otx2Rss.SetRssHashOpts(rssEnable, old(flowkeyCfg), flow, data);
        && (r.Ok? ==> ret == 0 && flowkeyCfg == r.value)
        && (r.Err? ==> ret == r.ret && ret < 0 && flowkeyCfg == old(flowkeyCfg))
    {
      var r := Otx2Rss.SetRssHashOpts(rssEnable, flowkeyCfg, flow, data);
      if r.Err? {
        return r.ret;
      }
      flowkeyCfg := r.value;
      ret := 0;
    }

    /**
     * otx2_rss_ctx_create: take the lowest free slot; -EINVAL when every slot
     * is taken, -ENOMEM when the zeroed context cannot be allocated
     * (`allocOk` is the outcome of kzalloc).
     */
    method RssCtxCreate(allocOk: bool) returns (ret: int, ctx: nat)
      requires Valid()
      modifies rssCtx
      ensures Valid()
      ensures FirstFree(old(rssCtx[..])).None? ==> ret == -EINVAL && rssCtx[..] == old(rssCtx[..])
      ensures FirstFree(old(rssCtx[..])).Some? && !allocOk ==> ret == -ENOMEM && rssCtx[..] == old(rssCtx[..])
      ensures FirstFree(old(rssCtx[..])).Some? && allocOk ==>
        && ret == 0
        && ctx == FirstFree(old(rssCtx[..])).value
        && rssCtx[..] == old(rssCtx[..])[ctx := Some(RssCtx(ZeroTable(indirTableSize)))]
    {
      ctx := 0;
      while ctx < rssCtx.Length
        invariant ctx <= rssCtx.Length
        invariant forall i :: 0 <= i < ctx ==> rssCtx[i].Some?
      {
        if rssCtx[ctx].None? {
          break;
        }
        ctx := ctx + 1;
      }
      if ctx == rssCtx.Length {
        return -EINVAL, ctx;
      }

      if !allocOk {
        return -ENOMEM, ctx;
      }
      rssCtx[ctx] := Some(RssCtx(ZeroTable(indirTableSize)));
      ret := 0;
    }

    /** otx2_rss_ctx_delete: the slot becomes free again. */
    method RssCtxDelete(ctxId: nat) returns (ret: int)
      requires Valid() && ctxId < rssCtx.Length
      modifies rssCtx
      ensures Valid() && ret == 0
      ensures rssCtx[..] == old(rssCtx[..])[ctxId := None]
    {
      rssCtx[ctxId] := None;
      ret := 0;
    }

    /**
     * otx2_get_rxfh_context with an indirection buffer (`wantIndir`) and a key
     * buffer (`wantKey`): the default context of a NIC without RSS reads as the
     * round-robin table; otherwise the context must exist.
     */
    method GetRxfhContext(rssContext: nat, wantIndir: bool, wantKey: bool) returns (ret: int, indir: seq<nat>, key: Option<seq<nat>>)
      requires Valid()
      ensures !wantIndir ==> ret == 0 && indir == [] && key == None
      ensures wantIndir && !rssEnable && rssContext == DEFAULT_RSS_CONTEXT_GROUP ==>
        ret == 0 && indir == DefaultIndir(indirTableSize, rxQueues) && key == None
      ensures wantIndir && (rssEnable || rssContext != DEFAULT_RSS_CONTEXT_GROUP) ==>
        && (ret == -ENOENT <==> rssContext >= rssCtx.Length || rssCtx[rssContext].None?)
        && (ret != -ENOENT ==> ret == 0)
        && (ret == -ENOENT ==> indir == [] && key == None)
        && (ret == 0 ==> indir == rssCtx[rssContext].value.indTbl[..rssSize]
                         && key == if wantKey then Some(rssKey) else None)
    {
      indir := [];
      key := None;
      if !wantIndir {
        return 0, indir, key;
      }

      if !rssEnable && rssContext == DEFAULT_RSS_CONTEXT_GROUP {
        var idx := 0;
        while idx < indirTableSize
          invariant idx <= indirTableSize
          invariant indir == DefaultIndir(idx, rxQueues)
        {
          indir := indir + [idx % rxQueues];
          idx := idx + 1;
        }
        return 0, indir, key;
      }
      if rssContext >= rssCtx.Length {
        return -ENOENT, indir, key;
      }

      var ctx := rssCtx[rssContext];
      if ctx.None? {
        return -ENOENT, indir, key;
      }

      var idx := 0;
      while idx < rssSize
        invariant idx <= rssSize
        invariant indir == ctx.value.indTbl[..idx]
      {
        indir := indir + [ctx.value.indTbl[idx]];
        idx := idx + 1;
      }
      if wantKey {
        key := Some(rssKey);
      }
      ret := 0;
    }
  }
}
