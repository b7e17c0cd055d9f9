/**
 * The ethtool statistics layout of the otx2 PF and VF drivers: how many
 * counters `get_sset_count` announces and which names `get_strings` writes,
 * one ETH_GSTRING_LEN slot per name, in the order `get_ethtool_stats` fills
 * the values.
 */
module Otx2Stats {
  import opened Otx2Types

  /** ETH_SS_STATS of the ethtool ABI. */
  const ETH_SS_STATS: int := 1

  /** Names of otx2_dev_stats[], in table order. */
  const DEV_STAT_NAMES: seq<string> :=
    ["rx_ucast_frames", "rx_bcast_frames", "rx_mcast_frames",
     "tx_ucast_frames", "tx_bcast_frames", "tx_mcast_frames"]

  /** Names of otx2_drv_stats[], in table order. */
  const DRV_STAT_NAMES: seq<string> :=
    ["rx_fcs_errs", "rx_oversize_errs", "rx_undersize_errs",
     "rx_csum_errs", "rx_len_errs", "rx_other_errs"]

  /** Names of otx2_queue_stats[], in table order. */
  const QUEUE_STAT_NAMES: seq<string> := ["bytes", "frames"]

  /** Receive or send queue. */
  datatype Dir = Rx | Tx

  /**
   * One ETH_GSTRING_LEN slot of the strings buffer.  The text sprintf would
   * produce is kept as its parts: "rxq%d: %s" is `QueueStat(Rx, q, name)`,
   * "cgx_rxstat%d: " is `CgxRxStat(i)`.
   */
  datatype StatString =
    | Named(name: string)
    | QueueStat(dir: Dir, qidx: nat, name: string)
    | CgxRxStat(index: nat)
    | CgxTxStat(index: nat)

  /** The names of all stats of queues 0 .. n-1 of one direction, queue by queue. */
  function QueueBlock(dir: Dir, n: nat, start: nat): (s: seq<StatString>)
    ensures |s| == |QUEUE_STAT_NAMES| * n
    ensures forall i :: 0 <= i < |s| ==> s[i].QueueStat? && s[i].dir == dir && start <= s[i].qidx < start + n
  {
    if n == 0 then []
    else QueueBlock(dir, n - 1, start) + QueueRow(dir, start + n - 1, |QUEUE_STAT_NAMES|)
  }

  /** The first k stat names of one queue. */
  function QueueRow(dir: Dir, qidx: nat, k: nat): (s: seq<StatString>)
    requires k <= |QUEUE_STAT_NAMES|
    ensures |s| == k
    ensures forall i :: 0 <= i < k ==> s[i] == QueueStat(dir, qidx, QUEUE_STAT_NAMES[i])
  {
    if k == 0 then [] else QueueRow(dir, qidx, k - 1) + [QueueStat(dir, qidx, QUEUE_STAT_NAMES[k - 1])]
  }

  /** The names of every queue statistic of queue set `qset`: all receive queues, then all send queues. */
  function QsetTable(rxQueues: nat, txQueues: nat, qset: nat): seq<StatString>
  {
    QueueBlock(Rx, rxQueues, qset * rxQueues) + QueueBlock(Tx, txQueues, qset * rxQueues)
  }

  function Names(names: seq<string>): (s: seq<StatString>)
    ensures |s| == |names|
    ensures forall i :: 0 <= i < |s| ==> s[i] == Named(names[i])
  {
    seq(|names|, i requires 0 <= i < |names| => Named(names[i]))
  }

  /** The slots "cgx_rxstat0: " .. "cgx_rxstat<n-1>: " (or the tx ones). */
  function CgxBlock(dir: Dir, n: nat): (s: seq<StatString>)
    ensures |s| == n
    ensures forall i :: 0 <= i < n ==> s[i] == if dir == Rx then CgxRxStat(i) else CgxTxStat(i)
  {
    if n == 0 then [] else CgxBlock(dir, n - 1) + [if dir == Rx then CgxRxStat(n - 1) else CgxTxStat(n - 1)]
  }

  /**
   * The whole strings buffer of ETH_SS_STATS: device stats, driver stats, the
   * queue stats of queue set 0, on a PF the CGX rx and tx stats, and finally
   * "reset_count".
   */
  function StringTable(isPf: bool, rxQueues: nat, txQueues: nat, cgxRx: nat, cgxTx: nat): seq<StatString>
  {
    CommonTable(rxQueues, txQueues) + (if isPf then CgxBlock(Rx, cgxRx) + CgxBlock(Tx, cgxTx) else []) + [RESET_COUNT]
  }

  /** The part of the strings buffer the PF and the VF share: device, driver and queue stats. */
  function CommonTable(rxQueues: nat, txQueues: nat): seq<StatString>
  {
    Names(DEV_STAT_NAMES) + Names(DRV_STAT_NAMES) + QsetTable(rxQueues, txQueues, 0)
  }

  const RESET_COUNT: StatString := Named("reset_count")

  /**
   * otx2_get_sset_count: the number of counters of ETH_SS_STATS, -EINVAL for
   * any other string set.  `cgxRx` and `cgxTx` are CGX_RX_STATS_COUNT and
   * CGX_TX_STATS_COUNT.
   */
  function SsetCount(sset: int, rxQueues: nat, txQueues: nat, cgxRx: nat, cgxTx: nat): (n: int)
    ensures sset != ETH_SS_STATS ==> n == -EINVAL
    ensures sset == ETH_SS_STATS ==> n == 12 + 2 * (rxQueues + txQueues) + cgxRx + cgxTx + 1
  {
    if sset != ETH_SS_STATS then -EINVAL
    else
      var qstatsCount := |QUEUE_STAT_NAMES| * (rxQueues + txQueues);
      |DEV_STAT_NAMES| + |DRV_STAT_NAMES| + qstatsCount + cgxRx + cgxTx + 1
  }

  /** otx2vf_get_sset_count: as the PF count, without the CGX statistics. */
  function VfSsetCount(sset: int, rxQueues: nat, txQueues: nat): (n: int)
    ensures sset != ETH_SS_STATS ==> n == -EINVAL
    ensures sset == ETH_SS_STATS ==> n == 12 + 2 * (rxQueues + txQueues) + 1
  {
    if sset != ETH_SS_STATS then -EINVAL
    else
      var qstatsCount := |QUEUE_STAT_NAMES| * (rxQueues + txQueues);
      |DEV_STAT_NAMES| + |DRV_STAT_NAMES| + qstatsCount + 1
  }

  /** The count announced for ETH_SS_STATS is the number of slots the strings buffer holds. */
  lemma {:induction false} SsetCountMatchesStrings(isPf: bool, rxQueues: nat, txQueues: nat, cgxRx: nat, cgxTx: nat)
    ensures isPf ==> SsetCount(ETH_SS_STATS, rxQueues, txQueues, cgxRx, cgxTx) == |StringTable(true, rxQueues, txQueues, cgxRx, cgxTx)|
    ensures !isPf ==> VfSsetCount(ETH_SS_STATS, rxQueues, txQueues) == |StringTable(false, rxQueues, txQueues, cgxRx, cgxTx)|
  {
    assert |CommonTable(rxQueues, txQueues)| == 12 + 2 * (rxQueues + txQueues);
  }

  /** The PF announces exactly the CGX counters more than the VF. */
  lemma PfCountsCgxOnTop(sset: int, rxQueues: nat, txQueues: nat, cgxRx: nat, cgxTx: nat)
    requires sset == ETH_SS_STATS
    ensures SsetCount(sset, rxQueues, txQueues, cgxRx, cgxTx) == VfSsetCount(sset, rxQueues, txQueues) + cgxRx + cgxTx
    ensures SsetCount(sset, rxQueues, txQueues, cgxRx, cgxTx) > 0
  {
  }

  /**
   * One of the two loop nests of otx2_get_qset_strings: for each queue of one
   * direction, one slot per queue statistic.
   */
  method QueueStrings(data: seq<StatString>, dir: Dir, queues: nat, startQidx: nat) returns (out: seq<StatString>)
    ensures out == data + QueueBlock(dir, queues, startQidx)
  {
    out := data;
    var qidx := 0;
    while qidx < queues
      invariant qidx <= queues
      invariant out == data + QueueBlock(dir, qidx, startQidx)
    {
      var stats := 0;
      while stats < |QUEUE_STAT_NAMES|
        invariant stats <= |QUEUE_STAT_NAMES|
        invariant out == data + QueueBlock(dir, qidx, startQidx) + QueueRow(dir, qidx + startQidx, stats)
      {
        out := out + [QueueStat(dir, qidx + startQidx, QUEUE_STAT_NAMES[stats])];
        stats := stats + 1;
      }
      assert QueueBlock(dir, qidx + 1, startQidx) == QueueBlock(dir, qidx, startQidx) + QueueRow(dir, qidx + startQidx, |QUEUE_STAT_NAMES|);
      qidx := qidx + 1;
    }
  }

  /**
   * otx2_get_qset_strings: the queue statistic names of queue set `qset`
   * appended to `data`, receive queues first.
   */
  method QsetStrings(data: seq<StatString>, rxQueues: nat, txQueues: nat, qset: nat) returns (out: seq<StatString>)
    ensures out == data + QsetTable(rxQueues, txQueues, qset)
    ensures |out| == |data| + |QUEUE_STAT_NAMES| * (rxQueues + txQueues)
  {
    var startQidx := qset * rxQueues;
    out := QueueStrings(data, Rx, rxQueues, startQidx);
    out := QueueStrings(out, Tx, txQueues, startQidx);
  }

  /** Append the slots of a name table, one per entry, as the memcpy loops do. */
  method CopyNames(data: seq<StatString>, names: seq<string>) returns (out: seq<StatString>)
    ensures out == data + Names(names)
  {
    out := data;
    var stats := 0;
    while stats < |names|
      invariant stats <= |names|
      invariant out == data + Names(names[..stats])
    {
      out := out + [Named(names[stats])];
      stats := stats + 1;
      assert Names(names[..stats]) == Names(names[..stats - 1]) + [Named(names[stats - 1])];
    }
    assert names[..stats] == names;
  }

  /** The loop writing "cgx_rxstat%d: " (or "cgx_txstat%d: ") for each CGX counter. */
  method CgxStrings(data: seq<StatString>, dir: Dir, count: nat) returns (out: seq<StatString>)
    ensures out == data + CgxBlock(dir, count)
  {
    out := data;
    var stats := 0;
    while stats < count
      invariant stats <= count
      invariant out == data + CgxBlock(dir, stats)
    {
      out := out + [if dir == Rx then CgxRxStat(stats) else CgxTxStat(stats)];
      stats := stats + 1;
    }
  }

  /** The loops otx2_get_strings and otx2vf_get_strings share: device, driver and queue-set 0 names. */
  method CommonStrings(rxQueues: nat, txQueues: nat) returns (data: seq<StatString>)
    ensures data == CommonTable(rxQueues, txQueues)
  {
    data := CopyNames([], DEV_STAT_NAMES);
    data := CopyNames(data, DRV_STAT_NAMES);
    data := QsetStrings(data, rxQueues, txQueues, 0);
  }

  /**
   * otx2_get_strings: for ETH_SS_STATS, the names of every counter in the
   * order the statistics are reported; nothing for any other set.
   */
  method GetStrings(sset: int, rxQueues: nat, txQueues: nat, cgxRx: nat, cgxTx: nat) returns (data: seq<StatString>)
    ensures sset != ETH_SS_STATS ==> data == []
    ensures sset == ETH_SS_STATS ==> data == StringTable(true, rxQueues, txQueues, cgxRx, cgxTx)
    ensures sset == ETH_SS_STATS ==> |data| == SsetCount(sset, rxQueues, txQueues, cgxRx, cgxTx)
  {
    data := [];
    if sset != ETH_SS_STATS {
      return;
    }
    var common := CommonStrings(rxQueues, txQueues);
    var withRx := CgxStrings(common, Rx, cgxRx);
    var withTx := CgxStrings(withRx, Tx, cgxTx);
    assert withTx == common + (CgxBlock(Rx, cgxRx) + CgxBlock(Tx, cgxTx));
    data := withTx + [RESET_COUNT];
    SsetCountMatchesStrings(true, rxQueues, txQueues, cgxRx, cgxTx);
  }

  /** otx2vf_get_strings: as the PF strings, without the CGX statistics. */
  method VfGetStrings(sset: int, rxQueues: nat, txQueues: nat) returns (data: seq<StatString>)
    ensures sset != ETH_SS_STATS ==> data == []
    ensures sset == ETH_SS_STATS ==> data == StringTable(false, rxQueues, txQueues, 0, 0)
    ensures sset == ETH_SS_STATS ==> |data| == VfSsetCount(sset, rxQueues, txQueues)
  {
    data := [];
    if sset != ETH_SS_STATS {
      return;
    }
    data := CommonStrings(rxQueues, txQueues);
    data := data + [RESET_COUNT];
    SsetCountMatchesStrings(false, rxQueues, txQueues, 0, 0);
  }
}
