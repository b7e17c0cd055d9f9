/**
 * The RSS hash-option translation of the otx2 driver: the write side turns an
 * ethtool request (a flow type and RXH_* bits) into a new flow-key
 * configuration, the read side turns the configuration back into RXH_* bits.
 */
module Otx2Rss {
  import opened KernelTypes
  import opened Otx2Types

  /**
   * otx2_set_rss_hash_opts without its final store: the flow-key configuration
   * that a request produces, or the error it is refused with.  `enable` is
   * rss_info.enable and `cfg` the current rss_info.flowkey_cfg.
   */
  function SetRssHashOpts(enable: bool, cfg: set<FlowKeyBit>, flow: FlowType, data: set<RxhBit>): (r: Result<set<FlowKeyBit>>)
    // RSS must be on, and source and destination IP are the minimum request.
    ensures !enable ==> r == Err(-EIO)
    ensures enable && !(RxhIpSrc in data && RxhIpDst in data) ==> r == Err(-EINVAL)
    ensures r.Ok? ==> enable && RxhIpSrc in data && RxhIpDst in data
    // Only TCP, UDP, SCTP and plain IPv4/IPv6 flows can be configured.
    ensures r.Ok? ==> L4Of(flow).Some? || flow == Ipv4Flow || flow == Ipv6Flow
    ensures r.Err? ==> r.ret == -EIO || r.ret == -EINVAL
    // Plain IP flows reset the configuration to hashing on the IPv4 and IPv6 addresses only.
    ensures enable && RxhIpSrc in data && RxhIpDst in data && (flow == Ipv4Flow || flow == Ipv6Flow) ==>
      r == Ok({KeyIPv4, KeyIPv6})
    // Any other flow type that hashes no ports (AH, ESP, unknown codes) is refused.
    ensures enable && RxhIpSrc in data && RxhIpDst in data && L4Of(flow).None? && flow != Ipv4Flow && flow != Ipv6Flow ==>
      r == Err(-EINVAL)
    // A port flow accepts both port halves or neither, never one.
    ensures enable && RxhIpSrc in data && RxhIpDst in data && L4Of(flow).Some? ==>
      (r.Ok? <==> RXH_L4 <= data || RXH_L4 !! data)
    ensures enable && RxhIpSrc in data && RxhIpDst in data && L4Of(flow).Some? && !(RXH_L4 <= data || RXH_L4 !! data) ==>
      r == Err(-EINVAL)
    // On success for a port flow: VLAN and the protocol's key follow the request, every other bit is kept.
    ensures r.Ok? && L4Of(flow).Some? ==>
      && (KeyVlan in r.value <==> RxhVlan in data)
      && (ProtoKey(L4Of(flow).value) in r.value <==> RXH_L4 <= data)
      && forall k :: k != KeyVlan && k != ProtoKey(L4Of(flow).value) ==> (k in r.value <==> k in cfg)
  {
    if !enable then Err(-EIO)
    else if !(RxhIpSrc in data) || !(RxhIpDst in data) then Err(-EINVAL)
    else
      var withVlan := if RxhVlan in data then cfg + {KeyVlan} else cfg - {KeyVlan};
      match flow
      case TcpV4Flow | TcpV6Flow => SetL4Key(withVlan, KeyTcp, data)
      case UdpV4Flow | UdpV6Flow => SetL4Key(withVlan, KeyUdp, data)
      case SctpV4Flow | SctpV6Flow => SetL4Key(withVlan, KeySctp, data)
      case Ipv4Flow | Ipv6Flow => Ok({KeyIPv4, KeyIPv6})
      case _ => Err(-EINVAL)
  }

  /** The inner switch on `data & rxh_l4` of one protocol. */
  function SetL4Key(cfg: set<FlowKeyBit>, key: FlowKeyBit, data: set<RxhBit>): (r: Result<set<FlowKeyBit>>)
    ensures r.Ok? <==> RXH_L4 <= data || RXH_L4 !! data
    ensures r.Err? ==> r.ret == -EINVAL
    ensures r.Ok? ==> (key in r.value <==> RXH_L4 <= data)
    ensures r.Ok? ==> forall k :: k != key ==> (k in r.value <==> k in cfg)
  {
    if RxhL4B01 !in data && RxhL4B23 !in data then Ok(cfg - {key})
    else if RxhL4B01 in data && RxhL4B23 in data then Ok(cfg + {key})
    else Err(-EINVAL)
  }

  /** What otx2_get_rss_hash_opts returns and leaves in ethtool_rxnfc.data. */
  datatype Reply = Reply(ret: int, data: set<RxhBit>)

  /**
   * otx2_get_rss_hash_opts: the RXH_* bits the configuration `cfg` hashes on
   * for `flow`; `data` is the caller's ethtool_rxnfc.data before the call.
   */
  function GetRssHashOpts(cfg: set<FlowKeyBit>, flow: FlowType, data: set<RxhBit>): (r: Reply)
    // Without an IP key nothing is reported, and the caller's data stays as it was.
    ensures KeyIPv4 !in cfg && KeyIPv6 !in cfg ==> r == Reply(0, data)
    ensures KeyIPv4 in cfg || KeyIPv6 in cfg ==>
      // Only the flow types the driver names are accepted ...
      && (r.ret == 0 <==> !flow.OtherFlow?)
      && (r.ret != 0 ==> r.ret == -EINVAL)
      // ... but the data is replaced before the flow type is looked at.
      && r.data <= RXH_KNOWN
      && RxhIpSrc in r.data && RxhIpDst in r.data
      && (RxhVlan in r.data <==> KeyVlan in cfg)
      && (RXH_L4 <= r.data <==> L4Of(flow).Some? && ProtoKey(L4Of(flow).value) in cfg)
      && (RXH_L4 !! r.data <==> !(RXH_L4 <= r.data))
  {
    if KeyIPv4 !in cfg && KeyIPv6 !in cfg then Reply(0, data)
    else
      var base := {RxhIpSrc, RxhIpDst} + (if KeyVlan in cfg then {RxhVlan} else {});
      match flow
      case TcpV4Flow | TcpV6Flow => Reply(0, base + (if KeyTcp in cfg then RXH_L4 else {}))
      case UdpV4Flow | UdpV6Flow => Reply(0, base + (if KeyUdp in cfg then RXH_L4 else {}))
      case SctpV4Flow | SctpV6Flow => Reply(0, base + (if KeySctp in cfg then RXH_L4 else {}))
      case AhEspV4Flow | AhV4Flow | EspV4Flow | Ipv4Flow | AhEspV6Flow | AhV6Flow | EspV6Flow | Ipv6Flow =>
        Reply(0, base)
      case OtherFlow(_) => Reply(-EINVAL, base)
  }

  /**
   * Writing a port-flow request and reading it back reports exactly the bits
   * of the request the driver understands, provided an IP key is configured.
   */
  lemma SetThenGet(cfg: set<FlowKeyBit>, flow: FlowType, data: set<RxhBit>, prior: set<RxhBit>)
    requires L4Of(flow).Some? && (KeyIPv4 in cfg || KeyIPv6 in cfg)
    requires SetRssHashOpts(true, cfg, flow, data).Ok?
    ensures GetRssHashOpts(SetRssHashOpts(true, cfg, flow, data).value, flow, prior) == Reply(0, data * RXH_KNOWN)
  {
    var cfg' := SetRssHashOpts(true, cfg, flow, data).value;
    var p := L4Of(flow).value;
    assert KeyIPv4 in cfg' || KeyIPv6 in cfg' by {
      assert KeyIPv4 != KeyVlan && KeyIPv4 != ProtoKey(p);
      assert KeyIPv6 != KeyVlan && KeyIPv6 != ProtoKey(p);
    }
    var r := GetRssHashOpts(cfg', flow, prior);
    assert RXH_L4 <= data || RXH_L4 !! data;
    forall b | b in RXH_KNOWN
      ensures b in r.data <==> b in data
    {
      if b == RxhL4B01 || b == RxhL4B23 {
        assert b in RXH_L4;
      }
    }
    assert r.data == data * RXH_KNOWN;
  }

  /**
   * Reading the options of a port flow and writing them back leaves the
   * configuration unchanged.
   */
  lemma GetThenSet(cfg: set<FlowKeyBit>, flow: FlowType, prior: set<RxhBit>)
    requires L4Of(flow).Some? && (KeyIPv4 in cfg || KeyIPv6 in cfg)
    ensures SetRssHashOpts(true, cfg, flow, GetRssHashOpts(cfg, flow, prior).data) == Ok(cfg)
  {
    var d := GetRssHashOpts(cfg, flow, prior).data;
    var p := L4Of(flow).value;
    var r := SetRssHashOpts(true, cfg, flow, d);
    assert r.Ok?;
    forall k
      ensures k in r.value <==> k in cfg
    {
      if k == KeyVlan {
      } else if k == ProtoKey(p) {
      }
    }
    assert r.value == cfg;
  }

  /**
   * After a plain IPv4 or IPv6 flow is configured, every accepted flow type
   * reads back as source and destination IP only.
   */
  lemma IpFlowResetReadsAddressesOnly(enable: bool, cfg: set<FlowKeyBit>, ipFlow: FlowType, data: set<RxhBit>, flow: FlowType, prior: set<RxhBit>)
    requires ipFlow == Ipv4Flow || ipFlow == Ipv6Flow
    requires SetRssHashOpts(enable, cfg, ipFlow, data).Ok?
    requires !flow.OtherFlow?
    ensures GetRssHashOpts(SetRssHashOpts(enable, cfg, ipFlow, data).value, flow, prior) == Reply(0, {RxhIpSrc, RxhIpDst})
  {
    var cfg' := SetRssHashOpts(enable, cfg, ipFlow, data).value;
    assert cfg' == {KeyIPv4, KeyIPv6};
    var r := GetRssHashOpts(cfg', flow, prior);
    assert RxhVlan !in r.data;
    assert !(RXH_L4 <= r.data) by {
      if L4Of(flow).Some? {
        assert ProtoKey(L4Of(flow).value) !in cfg';
      }
    }
    assert RxhL4B01 !in r.data && RxhL4B23 !in r.data;
    forall b | b in r.data
      ensures b == RxhIpSrc || b == RxhIpDst
    {
      assert b in RXH_KNOWN;
    }
    assert r.data == {RxhIpSrc, RxhIpDst};
  }
}
