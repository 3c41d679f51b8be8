/**
 What one analysis concludes and teaches: the detectors' answers laid out in the order they are asked,
 the result they add up to, and what that lets the baseline learn.
 */
module Analysis {
  import opened Types
  import opened Score
  import opened Capture
  import opened Dns

  type Country = string

  datatype RawPacket = RawPacket(data: seq<byte>, origLen: nat, truncated: bool, transport: Option<TransportMeta>)

  datatype Phase = Learning | Refinement

  /** The phase and the learned sets; the protocol shares are moving averages. */
  datatype Knowledge = Knowledge(
    phase: Phase, ports: set<u16>, dstIps: set<IpAddr>, countries: set<Country>, domains: set<Text>,
    protocols: map<byte, real>)

  /** What the detectors beside the baseline answer about one packet. */
  datatype Answers = Answers(
    srcListed: Option<Signal>, dstListed: Option<Signal>, rate: Option<Signal>, scan: Option<Signal>,
    syn: seq<Signal>, payload: seq<Signal>, domainListed: Option<Signal>)

  /** What one analysis has read from the baseline. */
  datatype Reads = Reads(newCountry: bool, knownName: bool, newPort: bool)

  /** The signals of one detector, and the flag reason it reports; 0 stands for none. */
  datatype Stage = Stage(reason: int, signals: seq<Signal>) {
    predicate Raised() {
      signals != []
    }

    predicate Flags() {
      reason != 0 && signals != []
    }
  }

  const FLAG_PORT_SCAN := 1
  const FLAG_SYN_FLOOD := 2
  const FLAG_DNS_ANOMALY := 3
  const FLAG_GEO_ANOMALY := 4
  const FLAG_PAYLOAD_SIG := 5
  const FLAG_RATE_EXCEEDED := 6
  const FLAG_BLACKLISTED := 7

  const WELL_KNOWN_PORTS: set<u16> := {
    20, 21, 22, 23, 25, 53, 67, 68, 69, 80, 110, 111, 119, 123, 135, 137, 138, 139, 143, 161, 162,
    179, 194, 389, 443, 445, 464, 465, 514, 515, 587, 631, 636, 993, 995, 1080, 1194, 1433, 1521,
    1723, 3306, 3389, 5432, 5900, 6379, 8080, 8443, 8888}

  predicate IsRateSignal(s: Signal) {
    (s.name.RatePackets? || s.name.RateBytes? || s.name.RateConnections?) && Priced(s)
  }

  predicate IsScanSignal(s: Signal) {
    (s.name.PortScanHorizontal? || s.name.PortScanVertical?) && Priced(s)
  }

  predicate IsSynSignal(s: Signal) {
    (s.name.SynFlood? || s.name.HalfOpenHigh? || s.name.RstInjection? || s.name.XmasScan?) && Priced(s)
  }

  predicate IsAddressSignal(s: Signal) {
    (s.name.BlacklistedIp? || s.name.BlacklistedCidr?) && Priced(s)
  }

  /** Matched signatures, each with the price the signature table gives it. */
  predicate AreSignatures(s: seq<Signal>) {
    forall i :: 0 <= i < |s| ==> s[i].name.PayloadSignature? && Priced(s[i])
  }

  /** Every detector answers with its own kind of signal. */
  predicate Plausible(a: Answers) {
    && (a.srcListed.Some? ==> IsAddressSignal(a.srcListed.value))
    && (a.dstListed.Some? ==> IsAddressSignal(a.dstListed.value))
    && (a.rate.Some? ==> IsRateSignal(a.rate.value))
    && (a.scan.Some? ==> IsScanSignal(a.scan.value))
    && (forall i :: 0 <= i < |a.syn| ==> IsSynSignal(a.syn[i]))
    && AreSignatures(a.payload)
    && (a.domainListed.Some? ==> a.domainListed.value == Signal(BlacklistedDomain, SCORE_BLACKLIST_DOMAIN))
  }

  // --- The stages ------------------------------------------------------------------------------------

  function ToSeq<T>(o: Option<T>): seq<T> {
    if o.Some? then [o.value] else []
  }

  /** What a signal scores follows from its name, but for signatures, which are priced one by one. */
  predicate Priced(s: Signal) {
    match s.name
    case BlacklistedIp => s.score == SCORE_BLACKLIST_IP
    case BlacklistedCidr => s.score == SCORE_BLACKLIST_IP
    case BlacklistedDomain => s.score == SCORE_BLACKLIST_DOMAIN
    case RatePackets => s.score == SCORE_RATE_EXCEEDED
    case RateBytes => s.score == SCORE_RATE_EXCEEDED
    case RateConnections => s.score == SCORE_RATE_EXCEEDED
    case PortScanHorizontal => s.score == SCORE_PORT_SCAN
    case PortScanVertical => s.score == SCORE_PORT_SCAN
    case SynFlood => s.score == SCORE_SYN_FLOOD
    case HalfOpenHigh => s.score == SCORE_HALF_OPEN_HIGH
    case RstInjection => s.score == 25
    case XmasScan => s.score == SCORE_PORT_SCAN_XMAS
    case IcmpUnusualType => s.score == 25
    case IpFragmentation => s.score == 20
    case PacketTruncated => s.score == 10
    case GeoNewCountry => s.score == SCORE_GEO_ANOMALY
    case PayloadSignature(_) => 35 <= s.score <= SCORE_PAYLOAD_SIG
    case DnsLongFqdn => s.score == SCORE_DNS_ANOMALY
    case DnsSuspiciousTld => s.score == 15
    case DnsLongLabel => s.score == SCORE_DNS_ANOMALY
    case DnsHighEntropy => s.score == SCORE_DNS_ANOMALY
    case DnsTunnelLargeResponse => s.score == SCORE_DNS_ANOMALY + 5
    case UnusualPort => s.score == SCORE_UNUSUAL_PORT_NETWORK || s.score == SCORE_UNUSUAL_PORT_GLOBAL
    case VlanReservedId => s.score == 20
  }

  predicate AllPriced(s: seq<Signal>) {
    forall i :: 0 <= i < |s| ==> Priced(s[i])
  }

  function When(c: bool, s: Signal): (r: seq<Signal>)
    ensures Priced(s) ==> AllPriced(r)
  {
    if c then [s] else []
  }

  predicate UnusualIcmp(tm: TransportMeta) {
    tm.protocol == 1 && tm.icmpType.Some? && tm.icmpCode.Some? && tm.icmpType.value >= 30
  }

  predicate Fragmented(tm: TransportMeta) {
    tm.ipFragOffset > 0 || tm.ipFlags % 2 == 1
  }

  predicate ReservedVlan(tm: TransportMeta) {
    tm.vlanId == Some(0) || tm.vlanId == Some(4095)
  }

  predicate HasPayload(pkt: RawPacket, tm: TransportMeta) {
    0 < tm.payloadOffset < |pkt.data|
  }

  function Payload(pkt: RawPacket, tm: TransportMeta): seq<byte>
    requires HasPayload(pkt, tm)
  {
    pkt.data[tm.payloadOffset..]
  }

  function QueryName(lib: Library, pkt: RawPacket, tm: TransportMeta): Option<Text> {
    if tm.protocol == 17 && (tm.dstPort == Some(53) || tm.srcPort == Some(53)) && HasPayload(pkt, tm)
    then Extract(lib, Payload(pkt, tm)) else None
  }

  function NameStage(lib: Library, name: Option<Text>, r: Reads): seq<Signal> {
    if name.Some? && !r.knownName then NameSignals(lib, name.value) else []
  }

  function PayloadStage(lib: Library, pkt: RawPacket, tm: TransportMeta): seq<Signal> {
    if QueryName(lib, pkt, tm).Some? then PayloadSignals(lib, Payload(pkt, tm)) else []
  }

  function UnusualPortScore(port: u16): int {
    if port in WELL_KNOWN_PORTS then SCORE_UNUSUAL_PORT_NETWORK else SCORE_UNUSUAL_PORT_GLOBAL
  }

  function PortStage(tm: TransportMeta, r: Reads): (s: seq<Signal>)
    ensures AllPriced(s)
  {
    if tm.dstPort.Some? && r.newPort then [Signal(UnusualPort, UnusualPortScore(tm.dstPort.value))] else []
  }

  const GEO := 8
  const LISTED := 10
  const NAME := 11
  const TUNNEL := 12
  const PORT := 13

  function ListStages(a: Answers): (s: seq<Stage>)
    ensures |s| == 2
  {
    [Stage(FLAG_BLACKLISTED, ToSeq(a.srcListed)), Stage(FLAG_BLACKLISTED, ToSeq(a.dstListed))]
  }

  function CounterStages(a: Answers): (s: seq<Stage>)
    ensures |s| == 3
  {
    [Stage(FLAG_RATE_EXCEEDED, ToSeq(a.rate)),
     Stage(FLAG_PORT_SCAN, ToSeq(a.scan)),
     Stage(FLAG_SYN_FLOOD, a.syn)]
  }

  function HeaderStages(pkt: RawPacket, tm: TransportMeta): (s: seq<Stage>)
    ensures |s| == 3
  {
    [Stage(0, When(UnusualIcmp(tm), Signal(IcmpUnusualType, 25))),
     Stage(0, When(Fragmented(tm), Signal(IpFragmentation, 20))),
     Stage(0, When(pkt.truncated, Signal(PacketTruncated, 10)))]
  }

  function NameStages(lib: Library, pkt: RawPacket, tm: TransportMeta, a: Answers, r: Reads): (s: seq<Stage>)
    ensures |s| == 3
  {
    [Stage(FLAG_BLACKLISTED, ToSeq(a.domainListed)),
     Stage(FLAG_DNS_ANOMALY, NameStage(lib, QueryName(lib, pkt, tm), r)),
     Stage(FLAG_DNS_ANOMALY, PayloadStage(lib, pkt, tm))]
  }

  /** All detectors in the order they are asked. */
  function Stages(lib: Library, pkt: RawPacket, tm: TransportMeta, a: Answers, r: Reads): (s: seq<Stage>)
    ensures |s| == 15
  {
    ListStages(a) + CounterStages(a) + HeaderStages(pkt, tm)
    + [Stage(FLAG_GEO_ANOMALY, When(r.newCountry, Signal(GeoNewCountry, SCORE_GEO_ANOMALY)))]
    + [Stage(FLAG_PAYLOAD_SIG, a.payload)]
    + NameStages(lib, pkt, tm, a, r)
    + [Stage(0, PortStage(tm, r))]
    + [Stage(0, When(ReservedVlan(tm), Signal(VlanReservedId, 20)))]
  }

  function Flatten(stages: seq<Stage>): seq<Signal> {
    if stages == [] then [] else Flatten(Init(stages)) + Last(stages).signals
  }

  /** The reported reason: set by the first detector that has one, never overwritten. */
  function FlagOf(stages: seq<Stage>): int {
    if stages == [] then 0
    else
      var prior := FlagOf(Init(stages));
      if prior == 0 && Last(stages).Raised() then Last(stages).reason else prior
  }

  function Conclude(stages: seq<Stage>): IdsResult {
    FromSignals(Flatten(stages), FlagOf(stages))
  }

  predicate Listed(lib: Library, blocked: set<Text>, name: Text) {
    lib.lower(TrimDots(name)) in blocked
  }

  /** The answer about the query name is that of a blacklist holding the domains `blocked`. */
  predicate Consults(lib: Library, blocked: set<Text>, pkt: RawPacket, tm: TransportMeta, a: Answers) {
    var name := QueryName(lib, pkt, tm);
    a.domainListed == if name.Some? && Listed(lib, blocked, name.value)
                      then Some(Signal(BlacklistedDomain, SCORE_BLACKLIST_DOMAIN)) else None
  }

  // --- What a packet teaches -------------------------------------------------------------------------

  const EMA_ALPHA := 0.001

  function Blended(share: real): real {
    EMA_ALPHA + (1.0 - EMA_ALPHA) * share
  }

  function ShareOf(protocols: map<byte, real>, proto: byte): real {
    if proto in protocols then protocols[proto] else 0.0
  }

  function SeenProtocol(protocols: map<byte, real>, proto: byte): map<byte, real> {
    protocols[proto := Blended(ShareOf(protocols, proto))]
  }

  function Insert<T>(s: set<T>, o: Option<T>): set<T> {
    if o.Some? then s + {o.value} else s
  }

  /** All that a packet can teach the baseline. */
  function Learned(
    lower: Text -> Text, k: Knowledge, tm: TransportMeta, country: Option<Country>, name: Option<Text>): Knowledge
  {
    Knowledge(
      k.phase, Insert(k.ports, tm.dstPort), k.dstIps + {tm.dstIp}, Insert(k.countries, country),
      if name.Some? then k.domains + {lower(name.value)} else k.domains,
      SeenProtocol(k.protocols, tm.protocol))
  }

  /** All that one state of the baseline has to say about a packet. */
  function ReadsOf(
    lower: Text -> Text, k: Knowledge, tm: TransportMeta, country: Option<Country>, name: Option<Text>): Reads
  {
    Reads(
      country.Some? && k.phase.Refinement? && country.value !in k.countries,
      name.Some? && lower(name.value) in k.domains,
      tm.dstPort.Some? && k.phase.Refinement? && tm.dstPort.value !in k.ports)
  }

  /** An analysis on its own: the result, and the baseline after it. */
  function Analyzed(
    lib: Library, k: Knowledge, pkt: RawPacket, tm: TransportMeta, a: Answers, country: Option<Country>)
    : (IdsResult, Knowledge)
  {
    var name := QueryName(lib, pkt, tm);
    var result := Conclude(Stages(lib, pkt, tm, a, ReadsOf(lib.lower, k, tm, country, name)));
    (result, if k.phase.Learning? || result.IsClean() then Learned(lib.lower, k, tm, country, name) else k)
  }
}
