/**
 * Vocabulary shared by the ethtool operations of the OcteonTX2 NIC driver
 * (drivers/net/ethernet/marvell/octeontx2/nic/otx2_ethtool.c): errno values,
 * the RXH_* request bits of struct ethtool_rxnfc, the NIX_FLOW_KEY_TYPE_*
 * configuration bits of the RSS flow key, and the ethtool flow types.
 *
 * The bit masks of the driver are modelled as sets of distinct abstract bits:
 * `x |= B` is `x + {B}`, `x &= ~B` is `x - {B}` and `x & B` is `B in x`.
 */
module Otx2Types {
  import opened KernelTypes

  const EIO: int := 5
  const ENOENT: int := 2
  const ENOMEM: int := 12
  const EINVAL: int := 22
  const EOPNOTSUPP: int := 95

  /** A return value of the driver: success with a value, or a negative errno. */
  datatype Result<T> = Ok(value: T) | Err(ret: int)

  /** RXH_* bits of ethtool_rxnfc.data; bits the driver never looks at are `OtherRxh`. */
  datatype RxhBit = RxhIpSrc | RxhIpDst | RxhVlan | RxhL4B01 | RxhL4B23 | OtherRxh(bit: nat)

  /** NIX_FLOW_KEY_TYPE_* bits of rss_info.flowkey_cfg; the rest are `OtherKey`. */
  datatype FlowKeyBit = KeyIPv4 | KeyIPv6 | KeyTcp | KeyUdp | KeySctp | KeyVlan | OtherKey(bit: nat)

  /** ethtool flow types (TCP_V4_FLOW, ...); every value the driver does not name is `OtherFlow`. */
  datatype FlowType =
    | TcpV4Flow | TcpV6Flow
    | UdpV4Flow | UdpV6Flow
    | SctpV4Flow | SctpV6Flow
    | AhEspV4Flow | AhV4Flow | EspV4Flow | Ipv4Flow
    | AhEspV6Flow | AhV6Flow | EspV6Flow | Ipv6Flow
    | OtherFlow(code: nat)

  /** The layer-4 protocols whose ports can be hashed. */
  datatype L4Proto = Tcp | Udp | Sctp

  /** The protocol of a TCP, UDP or SCTP flow type, over IPv4 or IPv6 alike. */
  function L4Of(f: FlowType): (p: Option<L4Proto>)
    ensures p == Some(Tcp) <==> f == TcpV4Flow || f == TcpV6Flow
    ensures p == Some(Udp) <==> f == UdpV4Flow || f == UdpV6Flow
    ensures p == Some(Sctp) <==> f == SctpV4Flow || f == SctpV6Flow
  {
    match f
    case TcpV4Flow | TcpV6Flow => Some(Tcp)
    case UdpV4Flow | UdpV6Flow => Some(Udp)
    case SctpV4Flow | SctpV6Flow => Some(Sctp)
    case _ => None
  }

  /** The flow-key bit that hashes a protocol's ports. */
  function ProtoKey(p: L4Proto): FlowKeyBit
  {
    match p
    case Tcp => KeyTcp
    case Udp => KeyUdp
    case Sctp => KeySctp
  }

  /** The two halves of the L4 port bits, RXH_L4_B_0_1 | RXH_L4_B_2_3. */
  const RXH_L4: set<RxhBit> := {RxhL4B01, RxhL4B23}

  /** The request bits the driver reads or reports. */
  const RXH_KNOWN: set<RxhBit> := {RxhIpSrc, RxhIpDst, RxhVlan, RxhL4B01, RxhL4B23}
}
