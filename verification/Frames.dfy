/**
 Encoders for the frames the parser is meant to read, after RFC 791 section 3.1, RFC 8200 section 3,
 RFC 9293 section 3.1, RFC 768 and RFC 792, and the proof that parsing inverts encoding.
 */
module Frames {
  import opened Types
  import opened Capture

  /** PCP and DEI in `priority`, then the VLAN identifier. */
  datatype VlanTag = VlanTag(priority: nat, vid: nat)

  datatype LinkLayer =
    | EthernetFrame(dstMac: seq<byte>, srcMac: seq<byte>, tag: Option<VlanTag>)
    | RawFrame
    | LoopbackFrame(family: seq<byte>)

  datatype IpHeader =
    | Ipv4Header(tosLenId: seq<byte>, flags: nat, fragOffset: nat, ttl: byte, checksum: seq<byte>,
                 src4: seq<byte>, dst4: seq<byte>, options: seq<byte>)
    | Ipv6Header(trafficFlow: seq<byte>, highClass: nat, payloadLen: seq<byte>, hopLimit: byte,
                 src6: seq<byte>, dst6: seq<byte>)

  datatype TransportHeader =
    | Tcp(tcpSrc: u16, tcpDst: u16, seqAck: seq<byte>, reserved: nat, flags: TcpFlags,
          winSumUrg: seq<byte>, tcpOptions: seq<byte>)
    | Udp(udpSrc: u16, udpDst: u16, lenSum: seq<byte>)
    | Icmp(kind: byte, code: byte, rest: seq<byte>)
    | Other(number: byte)

  datatype Frame = Frame(link: LinkLayer, ip: IpHeader, transport: TransportHeader, payload: seq<byte>)

  predicate WellFormedLink(l: LinkLayer) {
    match l
    case EthernetFrame(dst, src, tag) =>
      |dst| == 6 && |src| == 6 && (tag.Some? ==> tag.value.priority < 16 && tag.value.vid < 0x1000)
    case RawFrame => true
    case LoopbackFrame(family) => |family| == 4
  }

  predicate WellFormedIp(h: IpHeader) {
    match h
    case Ipv4Header(tosLenId, flags, frag, _, sum, src, dst, options) =>
      |tosLenId| == 5 && flags < 8 && frag < 0x2000 && |sum| == 2 && |src| == 4 && |dst| == 4
      && |options| <= 40 && |options| % 4 == 0
    case Ipv6Header(flow, high, len, _, src, dst) =>
      |flow| == 3 && high < 16 && |len| == 2 && |src| == 16 && |dst| == 16
  }

  predicate WellFormedTransport(t: TransportHeader) {
    match t
    case Tcp(_, _, seqAck, reserved, _, winSumUrg, options) =>
      |seqAck| == 8 && reserved < 16 && |winSumUrg| == 6 && |options| <= 40 && |options| % 4 == 0
    case Udp(_, _, lenSum) => |lenSum| == 4
    case Icmp(_, _, rest) => |rest| == 6
    case Other(n) => n != PROTO_TCP && n != PROTO_UDP && n != PROTO_ICMP && n != PROTO_ICMPV6
  }

  predicate WellFormed(f: Frame) {
    WellFormedLink(f.link) && WellFormedIp(f.ip) && WellFormedTransport(f.transport)
  }

  // --- Encoding ------------------------------------------------------------------------------------

  function Bytes16(x: u16): (r: seq<byte>)
    ensures |r| == 2 && Be16(r[0], r[1]) == x
  {
    [x / 0x100, x % 0x100]
  }

  function Nibble(b0: bool, b1: bool, b2: bool, b3: bool): (r: nat)
    ensures r < 16
    ensures (r % 2 == 1) == b0 && (r / 2 % 2 == 1) == b1 && (r / 4 % 2 == 1) == b2 && (r / 8 == 1) == b3
  {
    (if b0 then 1 else 0) + (if b1 then 2 else 0) + (if b2 then 4 else 0) + (if b3 then 8 else 0)
  }

  function FlagByte(f: TcpFlags): (r: byte)
    ensures FlagsOf(r) == f
  {
    var low, high := Nibble(f.fin, f.syn, f.rst, f.psh), Nibble(f.ack, f.urg, f.ece, f.cwr);
    var r := low + 16 * high;
    assert r % 16 == low && r / 16 == high;
    r
  }

  function VersionAndLength(options: nat): (r: byte)
    requires options <= 40 && options % 4 == 0
    ensures r / 16 == 4 && r % 16 * 4 == 20 + options
  {
    var words := options / 4;
    assert options == 4 * words;
    4 * 16 + (5 + words)
  }

  function FragmentField(flags: nat, frag: nat): (r: u16)
    requires flags < 8 && frag < 0x2000
    ensures r / 0x2000 == flags && r % 0x2000 == frag
  {
    flags * 0x2000 + frag
  }

  function TagControl(tag: VlanTag): (r: u16)
    requires tag.priority < 16 && tag.vid < 0x1000
    ensures r % 0x1000 == tag.vid
  {
    tag.priority * 0x1000 + tag.vid
  }

  function DataOffset(options: nat, reserved: nat): (r: byte)
    requires options <= 40 && options % 4 == 0 && reserved < 16
    ensures r / 16 * 4 == 20 + options
  {
    var words := options / 4;
    assert options == 4 * words;
    (5 + words) * 16 + reserved
  }

  function Protocol(f: Frame): byte {
    match f.transport
    case Tcp(_, _, _, _, _, _, _) => PROTO_TCP
    case Udp(_, _, _) => PROTO_UDP
    case Icmp(_, _, _) => if f.ip.Ipv4Header? then PROTO_ICMP else PROTO_ICMPV6
    case Other(n) => n
  }

  function EncodeTransport(t: TransportHeader): seq<byte>
    requires WellFormedTransport(t)
  {
    match t
    case Tcp(src, dst, seqAck, reserved, flags, winSumUrg, options) =>
      Bytes16(src) + Bytes16(dst) + seqAck
      + [DataOffset(|options|, reserved), FlagByte(flags)] + winSumUrg + options
    case Udp(src, dst, lenSum) => Bytes16(src) + Bytes16(dst) + lenSum
    case Icmp(kind, code, rest) => [kind, code] + rest
    case Other(_) => []
  }

  function EncodeIp(h: IpHeader, protocol: byte): seq<byte>
    requires WellFormedIp(h)
  {
    match h
    case Ipv4Header(tosLenId, flags, frag, ttl, sum, src, dst, options) =>
      [VersionAndLength(|options|)] + tosLenId + Bytes16(FragmentField(flags, frag)) + [ttl, protocol] + sum
      + src + dst + options
    case Ipv6Header(flow, high, len, hopLimit, src, dst) =>
      [6 * 16 + high] + flow + len + [protocol, hopLimit] + src + dst
  }

  function EncodeLink(l: LinkLayer, ip: IpHeader): seq<byte>
    requires WellFormedLink(l)
  {
    var etype: u16 := if ip.Ipv4Header? then ETYPE_IPV4 else ETYPE_IPV6;
    match l
    case EthernetFrame(dst, src, tag) =>
      dst + src
      + (if tag.Some? then Bytes16(ETYPE_VLAN) + Bytes16(TagControl(tag.value)) else [])
      + Bytes16(etype)
    case RawFrame => []
    case LoopbackFrame(family) => family
  }

  function Encode(f: Frame): seq<byte>
    requires WellFormed(f)
  {
    EncodeLink(f.link, f.ip) + (EncodeIp(f.ip, Protocol(f)) + (EncodeTransport(f.transport) + f.payload))
  }

  function LinkTypeOf(l: LinkLayer): LinkType {
    match l
    case EthernetFrame(_, _, _) => Ethernet
    case RawFrame => RawIp
    case LoopbackFrame(_) => Loopback
  }

  // --- What parsing should return ------------------------------------------------------------------

  function Address(octets: seq<byte>): IpAddr {
    if |octets| == 4 then V4(octets[0], octets[1], octets[2], octets[3]) else V6(octets)
  }

  function MacOf(l: LinkLayer): Option<seq<byte>> {
    if l.EthernetFrame? then Some(l.srcMac) else None
  }

  function VlanOf(l: LinkLayer): Option<u16>
    requires WellFormedLink(l)
  {
    if l.EthernetFrame? && l.tag.Some? then Some(l.tag.value.vid) else None
  }

  function Expected(f: Frame): TransportMeta
    requires WellFormed(f)
  {
    var t, ip := f.transport, f.ip;
    TransportMeta(
      if ip.Ipv4Header? then Address(ip.src4) else V6(ip.src6),
      if ip.Ipv4Header? then Address(ip.dst4) else V6(ip.dst6),
      if t.Tcp? then Some(t.tcpSrc) else if t.Udp? then Some(t.udpSrc) else None,
      if t.Tcp? then Some(t.tcpDst) else if t.Udp? then Some(t.udpDst) else None,
      Protocol(f),
      if t.Tcp? then Some(t.flags) else None,
      if ip.Ipv4Header? then ip.ttl else ip.hopLimit,
      if ip.Ipv4Header? then ip.flags else 0,
      if ip.Ipv4Header? then 8 * ip.fragOffset else 0,
      if t.Icmp? then Some(t.kind) else None,
      if t.Icmp? then Some(t.code) else None,
      MacOf(f.link), VlanOf(f.link),
      |Encode(f)| - |f.payload|)
  }

  /** What reading a transport header back should give. */
  function ExpectedTransport(t: TransportHeader): Transport
    requires WellFormedTransport(t)
  {
    var n := |EncodeTransport(t)|;
    match t
    case Tcp(src, dst, _, _, flags, _, _) => Transport(Some(src), Some(dst), Some(flags), None, None, n)
    case Udp(src, dst, _) => Transport(Some(src), Some(dst), None, None, None, n)
    case Icmp(kind, code, _) => Transport(None, None, None, Some(kind), Some(code), n)
    case Other(_) => Transport(None, None, None, None, None, n)
  }

  lemma {:induction false} TcpBytes(t: TransportHeader)
    requires WellFormedTransport(t) && t.Tcp?
    ensures var e := EncodeTransport(t);
            && |e| == 20 + |t.tcpOptions| && e[12] / 16 * 4 == |e|
            && Be16(e[0], e[1]) == t.tcpSrc && Be16(e[2], e[3]) == t.tcpDst && FlagsOf(e[13]) == t.flags
  {
    var e := EncodeTransport(t);
    assert e[12] == DataOffset(|t.tcpOptions|, t.reserved) && e[13] == FlagByte(t.flags);
    assert e[0] == Bytes16(t.tcpSrc)[0] && e[1] == Bytes16(t.tcpSrc)[1];
    assert e[2] == Bytes16(t.tcpDst)[0] && e[3] == Bytes16(t.tcpDst)[1];
  }

  lemma {:induction false} UdpBytes(t: TransportHeader)
    requires WellFormedTransport(t) && t.Udp?
    ensures var e := EncodeTransport(t);
            |e| == 8 && Be16(e[0], e[1]) == t.udpSrc && Be16(e[2], e[3]) == t.udpDst
  {
    var e := EncodeTransport(t);
    assert e[0] == Bytes16(t.udpSrc)[0] && e[1] == Bytes16(t.udpSrc)[1];
    assert e[2] == Bytes16(t.udpDst)[0] && e[3] == Bytes16(t.udpDst)[1];
  }

  lemma {:induction false} TransportRoundTrip(f: Frame)
    requires WellFormed(f)
    ensures ParseSegment(EncodeTransport(f.transport) + f.payload, Protocol(f),
                         if f.ip.Ipv4Header? then PROTO_ICMP else PROTO_ICMPV6)
         == ExpectedTransport(f.transport)
  {
    Prepended(EncodeTransport(f.transport), f.payload);
    match f.transport {
      case Tcp(_, _, _, _, _, _, _) => TcpBytes(f.transport);
      case Udp(_, _, _) => UdpBytes(f.transport);
      case Icmp(_, _, _) =>
      case Other(_) =>
    }
  }

  /** The result for an IP packet found behind `link`. */
  function ExpectedIp(f: Frame, link: Link): TransportMeta
    requires WellFormed(f)
  {
    var t, ip := ExpectedTransport(f.transport), f.ip;
    TransportMeta(
      if ip.Ipv4Header? then Address(ip.src4) else V6(ip.src6),
      if ip.Ipv4Header? then Address(ip.dst4) else V6(ip.dst6),
      t.srcPort, t.dstPort, Protocol(f), t.tcpFlags,
      if ip.Ipv4Header? then ip.ttl else ip.hopLimit,
      if ip.Ipv4Header? then ip.flags else 0,
      if ip.Ipv4Header? then 8 * ip.fragOffset else 0,
      t.icmpType, t.icmpCode, link.mac, link.vlan,
      link.ipOffset + |EncodeIp(ip, Protocol(f))| + t.skip)
  }

  lemma {:induction false} Ipv4RoundTrip(f: Frame, link: Link)
    requires WellFormed(f) && f.ip.Ipv4Header?
    ensures ParseIp(EncodeIp(f.ip, Protocol(f)) + (EncodeTransport(f.transport) + f.payload), link)
         == Some(ExpectedIp(f, link))
  {
    var h, tl := EncodeIp(f.ip, Protocol(f)), EncodeTransport(f.transport) + f.payload;
    Ipv4Bytes(f.ip, Protocol(f));
    TransportRoundTrip(f);
    Ipv4Reads(h, tl, link);
    assert Be16(h[6], h[7]) % 0x2000 * 8 == 8 * f.ip.fragOffset;
  }

  /** An IPv4 header is read the same whatever follows it. */
  lemma {:induction false} Ipv4Reads(h: seq<byte>, tl: seq<byte>, link: Link)
    requires |h| >= 20 && h[0] / 16 == 4 && h[0] % 16 * 4 == |h|
    ensures var t := ParseSegment(tl, h[9], PROTO_ICMP);
            ParseIp(h + tl, link) == Some(TransportMeta(
              V4(h[12], h[13], h[14], h[15]), V4(h[16], h[17], h[18], h[19]),
              t.srcPort, t.dstPort, h[9], t.tcpFlags,
              h[8], Be16(h[6], h[7]) / 0x2000, Be16(h[6], h[7]) % 0x2000 * 8,
              t.icmpType, t.icmpCode, link.mac, link.vlan, link.ipOffset + |h| + t.skip))
  {
    Prepended(h, tl);
  }

  lemma {:induction false} Ipv6RoundTrip(f: Frame, link: Link)
    requires WellFormed(f) && f.ip.Ipv6Header?
    ensures ParseIp(EncodeIp(f.ip, Protocol(f)) + (EncodeTransport(f.transport) + f.payload), link)
         == Some(ExpectedIp(f, link))
  {
    var h, tl := EncodeIp(f.ip, Protocol(f)), EncodeTransport(f.transport) + f.payload;
    Prepended(h, tl);
    Ipv6Bytes(f.ip, Protocol(f));
    assert (h + tl)[8..24] == h[8..24] && (h + tl)[24..40] == h[24..40];
    TransportRoundTrip(f);
  }

  lemma {:induction false} Prepended(h: seq<byte>, tl: seq<byte>)
    ensures forall i :: 0 <= i < |h| ==> (h + tl)[i] == h[i]
    ensures (h + tl)[|h|..] == tl
  {}

  lemma {:induction false} Ipv4Bytes(h: IpHeader, proto: byte)
    requires WellFormedIp(h) && h.Ipv4Header?
    ensures var e := EncodeIp(h, proto);
            && |e| == 20 + |h.options| && e[0] / 16 == 4 && e[0] % 16 * 4 == |e|
            && Be16(e[6], e[7]) / 0x2000 == h.flags && Be16(e[6], e[7]) % 0x2000 == h.fragOffset
            && e[8] == h.ttl && e[9] == proto
            && V4(e[12], e[13], e[14], e[15]) == Address(h.src4)
            && V4(e[16], e[17], e[18], e[19]) == Address(h.dst4)
  {
    var e := EncodeIp(h, proto);
    var ff := Bytes16(FragmentField(h.flags, h.fragOffset));
    assert e[6] == ff[0] && e[7] == ff[1];
    assert e[12..16] == h.src4 && e[16..20] == h.dst4;
    assert forall i :: 0 <= i < 4 ==> e[12..16][i] == e[12 + i] && e[16..20][i] == e[16 + i];
  }

  lemma {:induction false} Ipv6Bytes(h: IpHeader, proto: byte)
    requires WellFormedIp(h) && h.Ipv6Header?
    ensures var e := EncodeIp(h, proto);
            && |e| == 40 && e[0] / 16 == 6 && e[6] == proto && e[7] == h.hopLimit
            && e[8..24] == h.src6 && e[24..40] == h.dst6
  {}

  lemma {:induction false} LinkRoundTrip(f: Frame, ip: seq<byte>)
    requires WellFormed(f) && ip != []
    ensures var l := EncodeLink(f.link, f.ip);
            ParseLink(l + ip, LinkTypeOf(f.link))
            == Some(Link(|l|, MacOf(f.link), VlanOf(f.link)))
  {
    var l := EncodeLink(f.link, f.ip);
    if f.link.EthernetFrame? {
      EthernetBytes(f.link, f.ip);
      Prepended(l, ip);
      assert (l + ip)[6..12] == l[6..12];
    }
  }

  lemma {:induction false} EthernetBytes(l: LinkLayer, ip: IpHeader)
    requires WellFormedLink(l) && l.EthernetFrame?
    ensures var e := EncodeLink(l, ip);
            var n := if l.tag.Some? then 16 else 12;
            && |e| == n + 2 && e[6..12] == l.srcMac
            && Be16(e[n], e[n + 1]) == (if ip.Ipv4Header? then ETYPE_IPV4 else ETYPE_IPV6)
            && (l.tag.Some? ==> Be16(e[12], e[13]) == ETYPE_VLAN && Be16(e[14], e[15]) % 0x1000 == l.tag.value.vid)
  {
    var e := EncodeLink(l, ip);
    if l.tag.Some? {
      var tci := Bytes16(TagControl(l.tag.value));
      assert e[14] == tci[0] && e[15] == tci[1];
    }
  }

  /** Parsing an encoded frame returns every field, and the payload starts where the result says. */
  lemma {:induction false} RoundTrip(f: Frame)
    requires WellFormed(f)
    ensures ParseTransport(Encode(f), LinkTypeOf(f.link)) == Some(Expected(f))
    ensures Encode(f)[Expected(f).payloadOffset..] == f.payload
  {
    var l := EncodeLink(f.link, f.ip);
    var ip := EncodeIp(f.ip, Protocol(f)) + (EncodeTransport(f.transport) + f.payload);
    var link := Link(|l|, MacOf(f.link), VlanOf(f.link));
    LinkRoundTrip(f, ip);
    if f.ip.Ipv4Header? {
      Ipv4RoundTrip(f, link);
    } else {
      Ipv6RoundTrip(f, link);
    }
    Compose(l, ip, LinkTypeOf(f.link), link);
    ExpectedBehindLink(f);
    Layers(l, EncodeIp(f.ip, Protocol(f)), EncodeTransport(f.transport), f.payload);
  }

  lemma {:induction false} ExpectedBehindLink(f: Frame)
    requires WellFormed(f)
    ensures ExpectedIp(f, Link(|EncodeLink(f.link, f.ip)|, MacOf(f.link), VlanOf(f.link))) == Expected(f)
  {
    Layers(EncodeLink(f.link, f.ip), EncodeIp(f.ip, Protocol(f)), EncodeTransport(f.transport), f.payload);
  }

  lemma {:induction false} Compose(l: seq<byte>, ip: seq<byte>, linkType: LinkType, link: Link)
    requires ParseLink(l + ip, linkType) == Some(link) && link.ipOffset == |l|
    ensures ParseTransport(l + ip, linkType) == ParseIp(ip, link)
  {
    Prepended(l, ip);
  }

  lemma {:induction false} Layers(l: seq<byte>, h: seq<byte>, t: seq<byte>, payload: seq<byte>)
    ensures var whole := l + (h + (t + payload));
            |whole| - |payload| == |l| + |h| + |t| && whole[|whole| - |payload|..] == payload
  {}
}
