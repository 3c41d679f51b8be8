/** Transport metadata from raw bytes: Ethernet with an optional 802.1Q tag, IPv4, IPv6, TCP, UDP, ICMP. */
module Capture {
  import opened Types

  datatype LinkType = Ethernet | RawIp | Loopback | Unknown(code: nat)

  datatype TransportMeta = TransportMeta(
    srcIp: IpAddr, dstIp: IpAddr,
    srcPort: Option<u16>, dstPort: Option<u16>,
    protocol: byte, tcpFlags: Option<TcpFlags>,
    ttl: byte, ipFlags: byte, ipFragOffset: u16,
    icmpType: Option<byte>, icmpCode: Option<byte>,
    ethSrcMac: Option<seq<byte>>, vlanId: Option<u16>,
    payloadOffset: nat)

  const PROTO_ICMP: byte := 1
  const PROTO_TCP: byte := 6
  const PROTO_UDP: byte := 17
  const PROTO_ICMPV6: byte := 58

  const ETYPE_VLAN := 0x8100
  const ETYPE_IPV4 := 0x0800
  const ETYPE_IPV6 := 0x86DD

  function FlagsOf(b: byte): TcpFlags {
    var low, high := b % 16, b / 16;
    TcpFlags(low % 2 == 1, low / 2 % 2 == 1, low / 4 % 2 == 1, low / 8 == 1,
             high % 2 == 1, high / 2 % 2 == 1, high / 4 % 2 == 1, high / 8 == 1)
  }

  /** What the bytes after the IP header say, and how many of them to skip to reach the payload. */
  datatype Transport = Transport(
    srcPort: Option<u16>, dstPort: Option<u16>, tcpFlags: Option<TcpFlags>,
    icmpType: Option<byte>, icmpCode: Option<byte>, skip: nat)

  /** `icmp` is the protocol number of ICMP for the IP version at hand. */
  function ParseSegment(tl: seq<byte>, proto: byte, icmp: byte): Transport {
    if proto == PROTO_TCP && |tl| >= 20 then
      Transport(Some(Be16(tl[0], tl[1])), Some(Be16(tl[2], tl[3])), Some(FlagsOf(tl[13])), None, None,
                tl[12] / 16 * 4)
    else if proto == PROTO_UDP && |tl| >= 8 then
      Transport(Some(Be16(tl[0], tl[1])), Some(Be16(tl[2], tl[3])), None, None, None, 8)
    else if proto == icmp && |tl| >= 4 then
      Transport(None, None, None, Some(tl[0]), Some(tl[1]), 8)
    else
      Transport(None, None, None, None, None, 0)
  }

  function ParseIpv4(ip: seq<byte>, ipOffset: nat, mac: Option<seq<byte>>, vlan: Option<u16>): Option<TransportMeta> {
    if |ip| < 20 then None
    else
      var ihl := ip[0] % 16 * 4;
      if ihl < 20 || |ip| < ihl then None
      else
        var flagsFrag := Be16(ip[6], ip[7]);
        var t := ParseSegment(ip[ihl..], ip[9], PROTO_ICMP);
        Some(TransportMeta(
          V4(ip[12], ip[13], ip[14], ip[15]), V4(ip[16], ip[17], ip[18], ip[19]),
          t.srcPort, t.dstPort, ip[9], t.tcpFlags,
          ip[8], flagsFrag / 0x2000, flagsFrag % 0x2000 * 8,
          t.icmpType, t.icmpCode, mac, vlan, ipOffset + ihl + t.skip))
  }

  function ParseIpv6(ip: seq<byte>, ipOffset: nat, mac: Option<seq<byte>>, vlan: Option<u16>): Option<TransportMeta> {
    if |ip| < 40 then None
    else
      var t := ParseSegment(ip[40..], ip[6], PROTO_ICMPV6);
      Some(TransportMeta(
        V6(ip[8..24]), V6(ip[24..40]),
        t.srcPort, t.dstPort, ip[6], t.tcpFlags,
        ip[7], 0, 0,
        t.icmpType, t.icmpCode, mac, vlan, ipOffset + 40 + t.skip))
  }

  /** Where the IP header starts, and what the link layer said on the way. */
  datatype Link = Link(ipOffset: nat, mac: Option<seq<byte>>, vlan: Option<u16>)

  function ParseLink(data: seq<byte>, linkType: LinkType): Option<Link> {
    match linkType
    case Ethernet =>
      if |data| < 14 then None
      else
        var mac := Some(data[6..12]);
        var etype := Be16(data[12], data[13]);
        var tagged := etype == ETYPE_VLAN && |data| > 18;
        var inner := if tagged then Be16(data[16], data[17]) else etype;
        if inner != ETYPE_IPV4 && inner != ETYPE_IPV6 then None
        else if tagged then Some(Link(18, mac, Some(Be16(data[14], data[15]) % 0x1000)))
        else Some(Link(14, mac, None))
    case Loopback => Some(Link(4, None, None))
    case RawIp => Some(Link(0, None, None))
    case Unknown(_) => None
  }

  function ParseIp(ip: seq<byte>, link: Link): Option<TransportMeta> {
    if ip == [] then None
    else
      match ip[0] / 16
      case 4 => ParseIpv4(ip, link.ipOffset, link.mac, link.vlan)
      case 6 => ParseIpv6(ip, link.ipOffset, link.mac, link.vlan)
      case _ => None
  }

  function ParseTransport(data: seq<byte>, linkType: LinkType): Option<TransportMeta> {
    var link := ParseLink(data, linkType);
    if link.None? || link.value.ipOffset > |data| then None
    else ParseIp(data[link.value.ipOffset..], link.value)
  }

  /** The parser as the source walks it, moving an offset over the link layer. */
  method Parse(data: seq<byte>, linkType: LinkType) returns (r: Option<TransportMeta>)
    ensures r == ParseTransport(data, linkType)
  {
    var mac: Option<seq<byte>>, vlan: Option<u16> := None, None;
    var offset := 0;
    match linkType {
      case Ethernet =>
        if |data| < 14 {
          return None;
        }
        mac := Some(data[6..12]);
        offset := 12;
        var etype := Be16(data[offset], data[offset + 1]);
        offset := offset + 2;
        if etype == ETYPE_VLAN && |data| > offset + 4 {
          vlan := Some(Be16(data[offset], data[offset + 1]) % 0x1000);
          offset := offset + 2;
          etype := Be16(data[offset], data[offset + 1]);
          offset := offset + 2;
        }
        if etype != ETYPE_IPV4 && etype != ETYPE_IPV6 {
          return None;
        }
      case Loopback => offset := 4;
      case RawIp => offset := 0;
      case Unknown(_) => return None;
    }
    if offset > |data| {
      return None;
    }
    r := ParseIp(data[offset..], Link(offset, mac, vlan));
  }

  // --- Prefix stability ----------------------------------------------------------------------------

  /** The transport header was long enough to be read. */
  predicate Settled(m: TransportMeta) {
    m.srcPort.Some? || m.icmpType.Some?
  }

  /** Everything but what the transport header contributes. */
  predicate SameNetworkLayer(m: TransportMeta, n: TransportMeta) {
    && m.srcIp == n.srcIp && m.dstIp == n.dstIp && m.protocol == n.protocol && m.ttl == n.ttl
    && m.ipFlags == n.ipFlags && m.ipFragOffset == n.ipFragOffset
    && m.ethSrcMac == n.ethSrcMac && m.vlanId == n.vlanId
  }

  lemma {:induction false} SegmentPrefix(tl: seq<byte>, more: seq<byte>, proto: byte, icmp: byte)
    requires icmp != PROTO_TCP && icmp != PROTO_UDP
    ensures var t, t' := ParseSegment(tl, proto, icmp), ParseSegment(tl + more, proto, icmp);
            (t.srcPort.Some? || t.icmpType.Some?) || (proto != PROTO_TCP && proto != PROTO_UDP && proto != icmp)
            ==> t' == t
  {
    assert forall i :: 0 <= i < |tl| ==> (tl + more)[i] == tl[i];
  }

  lemma {:induction false} IpPrefix(ip: seq<byte>, more: seq<byte>, link: Link)
    requires ParseIp(ip, link).Some?
    ensures ParseIp(ip + more, link).Some?
    ensures var m, n := ParseIp(ip, link).value, ParseIp(ip + more, link).value;
            SameNetworkLayer(m, n) && (Settled(m) ==> m == n)
  {
    var whole := ip + more;
    if ip[0] / 16 == 4 {
      var ihl := ip[0] % 16 * 4;
      assert whole[ihl..] == ip[ihl..] + more;
      SegmentPrefix(ip[ihl..], more, ip[9], PROTO_ICMP);
    } else {
      assert whole[40..] == ip[40..] + more;
      assert whole[8..24] == ip[8..24] && whole[24..40] == ip[24..40];
      SegmentPrefix(ip[40..], more, ip[6], PROTO_ICMPV6);
    }
  }

  lemma {:induction false} LinkPrefix(data: seq<byte>, more: seq<byte>, linkType: LinkType)
    requires ParseLink(data, linkType).Some?
    ensures ParseLink(data + more, linkType) == ParseLink(data, linkType)
  {
    if linkType.Ethernet? {
      assert (data + more)[6..12] == data[6..12];
    }
  }

  /**
   Bytes that arrive later never take a parse back: a frame that parsed still parses, with the same
   link and network layer, and with the same result altogether once its transport header was read.
   */
  lemma {:induction false} LongerCaptureAgrees(data: seq<byte>, more: seq<byte>, linkType: LinkType)
    requires ParseTransport(data, linkType).Some?
    ensures ParseTransport(data + more, linkType).Some?
    ensures var m, n := ParseTransport(data, linkType).value, ParseTransport(data + more, linkType).value;
            SameNetworkLayer(m, n) && (Settled(m) ==> m == n)
  {
    LinkPrefix(data, more, linkType);
    var link := ParseLink(data, linkType).value;
    assert (data + more)[link.ipOffset..] == data[link.ipOffset..] + more;
    IpPrefix(data[link.ipOffset..], more, link);
  }

  // --- What is not parsed ----------------------------------------------------------------------------

  /** Only Ethernet, raw IP and loopback captures are looked at. */
  lemma {:induction false} UnknownLinkIsNotParsed(data: seq<byte>, code: nat)
    ensures ParseTransport(data, Unknown(code)) == None
  {}

  /** An Ethernet frame is parsed only if it is long enough and carries IPv4 or IPv6, behind a tag or not. */
  lemma {:induction false} OtherEtherTypesAreNotParsed(data: seq<byte>)
    requires |data| < 14
             || (Be16(data[12], data[13]) != 0x8100 && Be16(data[12], data[13]) != 0x0800
                 && Be16(data[12], data[13]) != 0x86DD)
             || (Be16(data[12], data[13]) == 0x8100
                 && (|data| <= 18 || (Be16(data[16], data[17]) != 0x0800 && Be16(data[16], data[17]) != 0x86DD)))
    ensures ParseTransport(data, Ethernet) == None
  {}

  /** Behind a link layer that is accepted, the version and the header lengths decide. */
  lemma {:induction false} IpIsParsedIff(ip: seq<byte>, link: Link)
    ensures ParseIp(ip, link).Some? <==>
            ip != [] && ((ip[0] / 16 == 4 && ip[0] % 16 >= 5 && |ip| >= 20 && |ip| >= 4 * (ip[0] % 16))
                         || (ip[0] / 16 == 6 && |ip| >= 40))
  {}

  /** Ports are read from 20 bytes of TCP or 8 of UDP, flags from TCP only, ICMP fields from 4 bytes of ICMP. */
  lemma {:induction false} SegmentFieldsIff(tl: seq<byte>, proto: byte, icmp: byte)
    requires icmp == 1 || icmp == 58
    ensures var t := ParseSegment(tl, proto, icmp);
            && (t.srcPort.Some? <==> (proto == 6 && |tl| >= 20) || (proto == 17 && |tl| >= 8))
            && (t.dstPort.Some? <==> t.srcPort.Some?)
            && (t.tcpFlags.Some? <==> proto == 6 && |tl| >= 20)
            && (t.icmpType.Some? <==> proto == icmp && |tl| >= 4) && (t.icmpCode.Some? <==> t.icmpType.Some?)
            && (t.srcPort.None? && t.icmpType.None? ==> t.skip == 0)
  {}
}
