/**
 What the engine makes of a frame on the wire: which fields of an encoded packet decide each signal, what the
 detectors are shown of it, and what the baseline learns from it.
 */
module FrameAnalysis {
  import opened Types
  import opened Score
  import opened Capture
  import opened Frames
  import opened Dns
  import opened Analysis
  import opened EngineState
  import RL = RateLimit
  import PS = PortScan
  import SF = SynFlood
  import BL = Blacklist

  // --- Which stage raises what -------------------------------------------------------------------------------------

  /** The stages, counted from 0, in which a signal of this name can be raised. */
  predicate MayRaise(k: nat, n: SignalName) {
    match n
    case BlacklistedIp => k == 0 || k == 1
    case BlacklistedCidr => k == 0 || k == 1
    case RatePackets => k == 2
    case RateBytes => k == 2
    case RateConnections => k == 2
    case PortScanHorizontal => k == 3
    case PortScanVertical => k == 3
    case SynFlood => k == 4
    case HalfOpenHigh => k == 4
    case RstInjection => k == 4
    case XmasScan => k == 4
    case IcmpUnusualType => k == 5
    case IpFragmentation => k == 6
    case PacketTruncated => k == 7
    case GeoNewCountry => k == 8
    case PayloadSignature(_) => k == 9
    case BlacklistedDomain => k == 10
    case DnsLongFqdn => k == 11 || k == 12
    case DnsSuspiciousTld => k == 11 || k == 12
    case DnsLongLabel => k == 11 || k == 12
    case DnsHighEntropy => k == 11 || k == 12
    case DnsTunnelLargeResponse => k == 12
    case UnusualPort => k == 13
    case VlanReservedId => k == 14
  }

  ghost predicate OnlyIn(k: nat, n: SignalName) {
    forall j: nat :: MayRaise(j, n) ==> j == k
  }

  lemma {:induction false} CounterNames(n: SignalName)
    ensures n.RatePackets? || n.RateBytes? || n.RateConnections? ==> OnlyIn(2, n)
    ensures n.PortScanHorizontal? || n.PortScanVertical? ==> OnlyIn(3, n)
    ensures n.SynFlood? || n.HalfOpenHigh? || n.RstInjection? || n.XmasScan? ==> OnlyIn(4, n)
  {}

  predicate Fitting(k: nat, s: seq<Signal>) {
    forall i :: 0 <= i < |s| ==> MayRaise(k, s[i].name)
  }

  lemma {:induction false} NameSignalsFit(lib: Library, name: Text, k: nat)
    requires k == 11 || k == 12
    ensures Fitting(k, NameSignals(lib, name))
  {
    var s := NameSignals(lib, name);
    NameSignalsScore(lib, name);
    forall i | 0 <= i < |s|
      ensures MayRaise(k, s[i].name)
    {
      assert IsNameSignal(s[i]);
    }
  }

  lemma {:induction false} FittingAppend(k: nat, s: seq<Signal>, t: seq<Signal>)
    requires Fitting(k, s) && Fitting(k, t)
    ensures Fitting(k, s + t)
  {}

  lemma {:induction false} PayloadStageFits(lib: Library, pkt: RawPacket, tm: TransportMeta)
    ensures Fitting(12, PayloadStage(lib, pkt, tm))
  {
    var name := QueryName(lib, pkt, tm);
    if name.Some? {
      NameSignalsFit(lib, name.value, 12);
      FittingAppend(12, NameSignals(lib, name.value), [Signal(DnsTunnelLargeResponse, SCORE_DNS_ANOMALY + 5)]);
    }
  }

  /** The reason each detector gives; 0 stands for none. */
  const REASONS := [7, 7, 6, 1, 2, 0, 0, 0, 4, 5, 7, 3, 3, 0, 0]

  /** The stages, the first of them being number `from`, raise what they may and give their own reason. */
  predicate Placed(from: nat, stages: seq<Stage>) {
    && from + |stages| <= 15
    && forall i :: 0 <= i < |stages| ==>
         Fitting(from + i, stages[i].signals) && stages[i].reason == REASONS[from + i]
  }

  lemma {:induction false} PlacedAppend(from: nat, s: seq<Stage>, t: seq<Stage>)
    requires Placed(from, s) && Placed(from + |s|, t)
    ensures Placed(from, s + t)
  {
    forall i | 0 <= i < |s + t|
      ensures Fitting(from + i, (s + t)[i].signals) && (s + t)[i].reason == REASONS[from + i]
    {
      if i >= |s| {
        assert (s + t)[i] == t[i - |s|] && from + i == from + |s| + (i - |s|);
      }
    }
  }

  lemma {:induction false} PlacedGroups(
    lists: seq<Stage>, counters: seq<Stage>, headers: seq<Stage>, geo: Stage, payload: Stage, names: seq<Stage>,
    port: Stage, vlan: Stage)
    requires |lists| == 2 && |counters| == 3 && |headers| == 3 && |names| == 3
    requires Placed(0, lists) && Placed(2, counters) && Placed(5, headers) && Placed(8, [geo])
    requires Placed(9, [payload]) && Placed(10, names) && Placed(13, [port]) && Placed(14, [vlan])
    ensures Placed(0, lists + counters + headers + [geo] + [payload] + names + [port] + [vlan])
  {
    PlacedAppend(0, lists, counters);
    PlacedAppend(0, lists + counters, headers);
    PlacedAppend(0, lists + counters + headers, [geo]);
    PlacedAppend(0, lists + counters + headers + [geo], [payload]);
    PlacedAppend(0, lists + counters + headers + [geo] + [payload], names);
    PlacedAppend(0, lists + counters + headers + [geo] + [payload] + names, [port]);
    PlacedAppend(0, lists + counters + headers + [geo] + [payload] + names + [port], [vlan]);
  }

  lemma {:induction false} ListsArePlaced(a: Answers)
    requires Plausible(a)
    ensures Placed(0, ListStages(a)) && Placed(2, CounterStages(a)) && Placed(9, [Stage(FLAG_PAYLOAD_SIG, a.payload)])
  {}

  lemma {:induction false} HeadersArePlaced(pkt: RawPacket, tm: TransportMeta)
    ensures Placed(5, HeaderStages(pkt, tm))
  {}

  lemma {:induction false} NamesArePlaced(lib: Library, pkt: RawPacket, tm: TransportMeta, a: Answers, r: Reads)
    requires Plausible(a)
    ensures Placed(10, NameStages(lib, pkt, tm, a, r))
  {
    if QueryName(lib, pkt, tm).Some? {
      NameSignalsFit(lib, QueryName(lib, pkt, tm).value, 11);
    }
    PayloadStageFits(lib, pkt, tm);
  }

  lemma {:induction false} CountryIsPlaced(r: Reads)
    ensures Placed(8, [Stage(FLAG_GEO_ANOMALY, When(r.newCountry, Signal(GeoNewCountry, SCORE_GEO_ANOMALY)))])
  {}

  lemma {:induction false} PortAndTagArePlaced(tm: TransportMeta, r: Reads)
    ensures Placed(13, [Stage(0, PortStage(tm, r))])
    ensures Placed(14, [Stage(0, When(ReservedVlan(tm), Signal(VlanReservedId, 20)))])
  {}

  /** Every detector raises its own signals, at its own place in the order, and gives its own reason. */
  lemma {:induction false} StagesRaiseTheirOwn(
    lib: Library, pkt: RawPacket, tm: TransportMeta, a: Answers, r: Reads)
    requires Plausible(a)
    ensures Placed(0, Stages(lib, pkt, tm, a, r))
  {
    ListsArePlaced(a);
    HeadersArePlaced(pkt, tm);
    NamesArePlaced(lib, pkt, tm, a, r);
    CountryIsPlaced(r);
    PortAndTagArePlaced(tm, r);
    PlacedGroups(ListStages(a), CounterStages(a), HeaderStages(pkt, tm),
                 Stage(FLAG_GEO_ANOMALY, When(r.newCountry, Signal(GeoNewCountry, SCORE_GEO_ANOMALY))),
                 Stage(FLAG_PAYLOAD_SIG, a.payload), NameStages(lib, pkt, tm, a, r), Stage(0, PortStage(tm, r)),
                 Stage(0, When(ReservedVlan(tm), Signal(VlanReservedId, 20))));
  }

  lemma {:induction false} InFlattenIff(stages: seq<Stage>, x: Signal)
    ensures x in Flatten(stages) <==> exists k :: 0 <= k < |stages| && x in stages[k].signals
  {
    if stages != [] {
      var front := Init(stages);
      InFlattenIff(front, x);
      if k :| 0 <= k < |stages| && x in stages[k].signals {
        assert k < |front| ==> front[k] == stages[k];
      }
      if k :| 0 <= k < |front| && x in front[k].signals {
        assert stages[k] == front[k];
      }
    }
  }

  lemma {:induction false} OnlyFrom(stages: seq<Stage>, k: nat, x: Signal)
    requires k < |stages| && forall j :: 0 <= j < |stages| ==> Fitting(j, stages[j].signals)
    requires forall j :: 0 <= j < |stages| && MayRaise(j, x.name) ==> j == k
    ensures x in Flatten(stages) <==> x in stages[k].signals
  {
    InFlattenIff(stages, x);
    forall j | 0 <= j < |stages| && x in stages[j].signals
      ensures j == k
    {
      var i :| 0 <= i < |stages[j].signals| && stages[j].signals[i] == x;
    }
  }

  // --- From a stage to the result ----------------------------------------------------------------------------------

  /** `r` lists what fifteen stages raise, each of them its own signals. */
  ghost predicate Lists(r: seq<Signal>, stages: seq<Stage>) {
    |stages| == 15 && Placed(0, stages) && forall x :: x in r <==> x in Flatten(stages)
  }

  lemma {:induction false} ArrangedLists(r: seq<Signal>, stages: seq<Stage>)
    requires |stages| == 15 && Placed(0, stages) && multiset(r) == multiset(Flatten(stages))
    ensures Lists(r, stages)
  {
    forall x
      ensures x in r <==> x in Flatten(stages)
    {
      assert x in r <==> x in multiset(r);
      assert x in Flatten(stages) <==> x in multiset(Flatten(stages));
    }
  }

  lemma {:induction false} ResultLists(w: Setting, s: State, pkt: RawPacket, tm: TransportMeta, now: real)
    requires pkt.transport == Some(tm) && forall p :: AreSignatures(w.scanAll(p))
    ensures Lists(ResultAt(w, s, pkt, now).signals, StagesAt(w, s, pkt, tm, now))
  {
    AnswersArePlausible(w, s.logs, pkt, tm, now);
    StagesRaiseTheirOwn(w.lib, pkt, tm, AnswersTo(w, s.logs, pkt, tm, now),
                        ReadsOf(w.lib.lower, s.known, tm, w.countryCode(tm.srcIp), QueryName(w.lib, pkt, tm)));
    ResultIsArranged(w, s, pkt, now);
    ArrangedLists(ResultAt(w, s, pkt, now).signals, StagesAt(w, s, pkt, tm, now));
  }

  /** A signal that only stage `k` can raise is in the result exactly if that stage raises it. */
  lemma {:induction false} StageDecides(r: seq<Signal>, stages: seq<Stage>, k: nat, x: Signal)
    requires Lists(r, stages) && k < 15 && OnlyIn(k, x.name)
    ensures x in r <==> x in stages[k].signals
  {
    OnlyFrom(stages, k, x);
  }

  /** The same for a stage that raises that signal or nothing. */
  lemma {:induction false} ConditionDecides(r: seq<Signal>, stages: seq<Stage>, k: nat, c: bool, x: Signal)
    requires Lists(r, stages) && k < 15 && stages[k].signals == When(c, x)
    requires OnlyIn(k, x.name)
    ensures x in r <==> c
  {
    StageDecides(r, stages, k, x);
  }

  /** What the header stages, the country stage and the VLAN stage look at. */
  predicate HeaderStagesAsk(stages: seq<Stage>, tm: TransportMeta, truncated: bool) {
    && |stages| == 15
    && stages[5].signals == When(UnusualIcmp(tm), Signal(IcmpUnusualType, 25))
    && stages[6].signals == When(Fragmented(tm), Signal(IpFragmentation, 20))
    && stages[7].signals == When(truncated, Signal(PacketTruncated, 10))
    && stages[14].signals == When(ReservedVlan(tm), Signal(VlanReservedId, 20))
  }

  lemma {:induction false} HeaderStagesByNumber(lib: Library, pkt: RawPacket, tm: TransportMeta, a: Answers, r: Reads)
    ensures HeaderStagesAsk(Stages(lib, pkt, tm, a, r), tm, pkt.truncated)
  {}

  lemma {:induction false} HeaderStagesAt(w: Setting, s: State, pkt: RawPacket, tm: TransportMeta, now: real)
    ensures HeaderStagesAsk(StagesAt(w, s, pkt, tm, now), tm, pkt.truncated)
  {
    HeaderStagesByNumber(w.lib, pkt, tm, AnswersTo(w, s.logs, pkt, tm, now),
                         ReadsOf(w.lib.lower, s.known, tm, w.countryCode(tm.srcIp), QueryName(w.lib, pkt, tm)));
  }

  lemma {:induction false} HeadersDecide(r: seq<Signal>, stages: seq<Stage>, tm: TransportMeta, truncated: bool)
    requires Lists(r, stages) && HeaderStagesAsk(stages, tm, truncated)
    ensures Signal(IpFragmentation, 20) in r <==> Fragmented(tm)
    ensures Signal(IcmpUnusualType, 25) in r <==> UnusualIcmp(tm)
    ensures Signal(VlanReservedId, 20) in r <==> ReservedVlan(tm)
    ensures Signal(PacketTruncated, 10) in r <==> truncated
  {
    ConditionDecides(r, stages, 5, UnusualIcmp(tm), Signal(IcmpUnusualType, 25));
    ConditionDecides(r, stages, 6, Fragmented(tm), Signal(IpFragmentation, 20));
    ConditionDecides(r, stages, 7, truncated, Signal(PacketTruncated, 10));
    ConditionDecides(r, stages, 14, ReservedVlan(tm), Signal(VlanReservedId, 20));
  }

  // --- Frames ------------------------------------------------------------------------------------------------------

  /** The packet holds the bytes of the frame and the metadata read from them. */
  predicate Carries(pkt: RawPacket, f: Frame) {
    WellFormed(f) && pkt.data == Encode(f) && pkt.transport == ParseTransport(pkt.data, LinkTypeOf(f.link))
  }

  lemma {:induction false} CarriedIsRead(pkt: RawPacket, f: Frame)
    requires Carries(pkt, f)
    ensures pkt.transport == Some(Expected(f))
    ensures HasPayload(pkt, Expected(f)) <==> f.payload != []
    ensures HasPayload(pkt, Expected(f)) ==> Payload(pkt, Expected(f)) == f.payload
  {
    RoundTrip(f);
    IpHeaderIsThere(f);
  }

  lemma {:induction false} IpHeaderIsThere(f: Frame)
    requires WellFormed(f)
    ensures |Encode(f)| > |f.payload|
  {
    var ip := EncodeIp(f.ip, Protocol(f));
    if f.ip.Ipv4Header? {
      Ipv4Bytes(f.ip, Protocol(f));
    } else {
      Ipv6Bytes(f.ip, Protocol(f));
    }
    Layers(EncodeLink(f.link, f.ip), ip, EncodeTransport(f.transport), f.payload);
  }

  predicate IsFragment(f: Frame) {
    f.ip.Ipv4Header? && (f.ip.fragOffset > 0 || f.ip.flags % 2 == 1)
  }

  predicate IsOddIcmp(f: Frame) {
    f.ip.Ipv4Header? && f.transport.Icmp? && f.transport.kind >= 30
  }

  predicate HasReservedTag(f: Frame) {
    f.link.EthernetFrame? && f.link.tag.Some? && (f.link.tag.value.vid == 0 || f.link.tag.value.vid == 4095)
  }

  lemma {:induction false} FragmentIsRead(f: Frame)
    requires WellFormed(f)
    ensures Fragmented(Expected(f)) <==> IsFragment(f)
  {
    var tm := Expected(f);
    assert tm.ipFlags == if f.ip.Ipv4Header? then f.ip.flags else 0;
    assert tm.ipFragOffset == if f.ip.Ipv4Header? then 8 * f.ip.fragOffset else 0;
  }

  lemma {:induction false} IcmpIsRead(f: Frame)
    requires WellFormed(f)
    ensures UnusualIcmp(Expected(f)) <==> IsOddIcmp(f)
  {
    var tm := Expected(f);
    assert tm.protocol == Protocol(f) && tm.icmpType == (if f.transport.Icmp? then Some(f.transport.kind) else None);
  }

  lemma {:induction false} TagIsRead(f: Frame)
    requires WellFormed(f)
    ensures ReservedVlan(Expected(f)) <==> HasReservedTag(f)
  {
    assert Expected(f).vlanId == VlanOf(f.link);
  }

  /**
   Which header fields raise what: the fragment offset or the more-fragments bit of IPv4, and not the
   don't-fragment bit; an IPv4 ICMP type from 30 on; the VLAN identifiers 0 and 4095; a truncated capture.
   */
  lemma {:induction false} FrameHeadersDecide(w: Setting, s: State, pkt: RawPacket, f: Frame, now: real)
    requires Carries(pkt, f) && forall p :: AreSignatures(w.scanAll(p))
    ensures var r := ResultAt(w, s, pkt, now).signals;
            && (Signal(IpFragmentation, 20) in r <==> IsFragment(f))
            && (Signal(IcmpUnusualType, 25) in r <==> IsOddIcmp(f))
            && (Signal(VlanReservedId, 20) in r <==> HasReservedTag(f))
            && (Signal(PacketTruncated, 10) in r <==> pkt.truncated)
  {
    CarriedIsRead(pkt, f);
    FragmentIsRead(f);
    IcmpIsRead(f);
    TagIsRead(f);
    ResultLists(w, s, pkt, Expected(f), now);
    HeaderStagesAt(w, s, pkt, Expected(f), now);
    HeadersDecide(ResultAt(w, s, pkt, now).signals, StagesAt(w, s, pkt, Expected(f), now), Expected(f), pkt.truncated);
  }

  // --- The baseline's signals --------------------------------------------------------------------------------------

  function Source(f: Frame): IpAddr
    requires WellFormed(f)
  {
    if f.ip.Ipv4Header? then V4(f.ip.src4[0], f.ip.src4[1], f.ip.src4[2], f.ip.src4[3]) else V6(f.ip.src6)
  }

  function Destination(f: Frame): IpAddr
    requires WellFormed(f)
  {
    if f.ip.Ipv4Header? then V4(f.ip.dst4[0], f.ip.dst4[1], f.ip.dst4[2], f.ip.dst4[3]) else V6(f.ip.dst6)
  }

  /** The ports of TCP and UDP; nothing else has any. */
  function PortFrom(f: Frame): Option<u16> {
    match f.transport
    case Tcp(src, _, _, _, _, _, _) => Some(src)
    case Udp(src, _, _) => Some(src)
    case Icmp(_, _, _) => None
    case Other(_) => None
  }

  function PortTo(f: Frame): Option<u16> {
    match f.transport
    case Tcp(_, dst, _, _, _, _, _) => Some(dst)
    case Udp(_, dst, _) => Some(dst)
    case Icmp(_, _, _) => None
    case Other(_) => None
  }

  lemma {:induction false} EndsAreRead(f: Frame)
    requires WellFormed(f)
    ensures var tm := Expected(f);
            && tm.srcIp == Source(f) && tm.dstIp == Destination(f)
            && tm.srcPort == PortFrom(f) && tm.dstPort == PortTo(f)
  {}

  lemma {:induction false} BaselineStagesAt(w: Setting, s: State, pkt: RawPacket, tm: TransportMeta, now: real)
    ensures var t, country := StagesAt(w, s, pkt, tm, now), w.countryCode(tm.srcIp);
            && t[8].signals == When(IsNewCountry(s.known, country), Signal(GeoNewCountry, SCORE_GEO_ANOMALY))
            && t[13].signals == PortStage(tm, Reads(false, false, IsNewPort(s.known, tm.dstPort)))
  {}

  predicate IsNewCountry(k: Knowledge, country: Option<Country>) {
    k.phase == Refinement && country.Some? && country.value !in k.countries
  }

  predicate IsNewPort(k: Knowledge, port: Option<u16>) {
    k.phase == Refinement && port.Some? && port.value !in k.ports
  }

  lemma {:induction false} BaselineDecides(
    r: seq<Signal>, stages: seq<Stage>, tm: TransportMeta, newCountry: bool, newPort: bool)
    requires Lists(r, stages) && (newPort ==> tm.dstPort.Some?)
    requires stages[8].signals == When(newCountry, Signal(GeoNewCountry, SCORE_GEO_ANOMALY))
    requires stages[13].signals == PortStage(tm, Reads(false, false, newPort))
    ensures Signal(GeoNewCountry, 35) in r <==> newCountry
    ensures Signal(UnusualPort, 30) in r <==> newPort && tm.dstPort.value in WELL_KNOWN_PORTS
    ensures Signal(UnusualPort, 20) in r <==> newPort && tm.dstPort.value !in WELL_KNOWN_PORTS
  {
    ConditionDecides(r, stages, 8, newCountry, Signal(GeoNewCountry, 35));
    StageDecides(r, stages, 13, Signal(UnusualPort, 30));
    StageDecides(r, stages, 13, Signal(UnusualPort, 20));
  }

  /** In Refinement a new country scores 35, a new well-known port 30, any other new port 20; nothing while learning. */
  lemma {:induction false} FrameMeetsBaseline(w: Setting, s: State, pkt: RawPacket, f: Frame, now: real)
    requires Carries(pkt, f) && forall p :: AreSignatures(w.scanAll(p))
    ensures var r := ResultAt(w, s, pkt, now).signals;
            var newPort := IsNewPort(s.known, PortTo(f));
            && (Signal(GeoNewCountry, 35) in r <==> IsNewCountry(s.known, w.countryCode(Source(f))))
            && (Signal(UnusualPort, 30) in r <==> newPort && PortTo(f).value in WELL_KNOWN_PORTS)
            && (Signal(UnusualPort, 20) in r <==> newPort && PortTo(f).value !in WELL_KNOWN_PORTS)
  {
    var tm := Expected(f);
    CarriedIsRead(pkt, f);
    EndsAreRead(f);
    ResultLists(w, s, pkt, tm, now);
    BaselineStagesAt(w, s, pkt, tm, now);
    BaselineDecides(ResultAt(w, s, pkt, now).signals, StagesAt(w, s, pkt, tm, now), tm,
                    IsNewCountry(s.known, w.countryCode(Source(f))), IsNewPort(s.known, PortTo(f)));
  }

  // --- Query names -------------------------------------------------------------------------------------------------

  /** A query name is looked for in the payload of UDP from or to port 53, and nowhere else. */
  function NameIn(lib: Library, f: Frame): Option<Text> {
    if f.transport.Udp? && (f.transport.udpSrc == 53 || f.transport.udpDst == 53) && f.payload != []
    then Extract(lib, f.payload) else None
  }

  lemma {:induction false} QueryNameIsRead(lib: Library, pkt: RawPacket, f: Frame)
    requires Carries(pkt, f)
    ensures QueryName(lib, pkt, Expected(f)) == NameIn(lib, f)
  {
    CarriedIsRead(pkt, f);
    EndsAreRead(f);
    assert Expected(f).protocol == Protocol(f);
  }

  lemma {:induction false} NameStagesAt(w: Setting, s: State, pkt: RawPacket, tm: TransportMeta, now: real)
    ensures var t, name := StagesAt(w, s, pkt, tm, now), QueryName(w.lib, pkt, tm);
            && t[10].signals == ToSeq(DomainOf(w.lib, w.domains, name))
            && t[11].signals == (if name.Some? && w.lib.lower(name.value) !in s.known.domains
                                 then NameSignals(w.lib, name.value) else [])
            && t[12].signals == if name.Some? then PayloadSignals(w.lib, Payload(pkt, tm)) else []
  {}

  /** What the three stages of the query name raise. */
  predicate NameStagesAsk(
    stages: seq<Stage>, lib: Library, domains: set<Text>, name: Option<Text>, known: bool, payload: seq<byte>)
  {
    && |stages| == 15 && (name.Some? ==> name == Extract(lib, payload))
    && stages[10].signals == ToSeq(DomainOf(lib, domains, name))
    && stages[11].signals == (if name.Some? && !known then NameSignals(lib, name.value) else [])
    && stages[12].signals == if name.Some? then PayloadSignals(lib, payload) else []
  }

  lemma {:induction false} ListedDecides(
    r: seq<Signal>, stages: seq<Stage>, lib: Library, domains: set<Text>, name: Option<Text>, known: bool,
    payload: seq<byte>)
    requires Lists(r, stages) && NameStagesAsk(stages, lib, domains, name, known, payload)
    ensures Signal(BlacklistedDomain, 80) in r <==> name.Some? && lib.lower(TrimDots(name.value)) in domains
  {
    StageDecides(r, stages, 10, Signal(BlacklistedDomain, 80));
  }

  lemma {:induction false} TunnelStageDecides(r: seq<Signal>, stages: seq<Stage>, raised: seq<Signal>)
    requires Lists(r, stages) && stages[12].signals == raised
    ensures Signal(DnsTunnelLargeResponse, 50) in r <==> Signal(DnsTunnelLargeResponse, 50) in raised
  {
    StageDecides(r, stages, 12, Signal(DnsTunnelLargeResponse, 50));
  }

  lemma {:induction false} TunnelDecides(
    r: seq<Signal>, stages: seq<Stage>, lib: Library, domains: set<Text>, name: Option<Text>, known: bool,
    payload: seq<byte>)
    requires Lists(r, stages) && NameStagesAsk(stages, lib, domains, name, known, payload)
    ensures Signal(DnsTunnelLargeResponse, 50) in r
            <==> name.Some? && payload[2] / 0x80 == 1 && Be16(payload[6], payload[7]) > 0 && |payload| >= 400
  {
    TunnelStageDecides(r, stages, stages[12].signals);
    TunnelIff(lib, payload);
  }

  /** A listed name scores 80; a response with answers of 400 bytes or more about any name scores 50. */
  lemma {:induction false} FrameNameDecides(w: Setting, s: State, pkt: RawPacket, f: Frame, now: real)
    requires Carries(pkt, f) && forall p :: AreSignatures(w.scanAll(p))
    ensures var r, name, p := ResultAt(w, s, pkt, now).signals, NameIn(w.lib, f), f.payload;
            && (Signal(BlacklistedDomain, 80) in r <==> name.Some? && w.lib.lower(TrimDots(name.value)) in w.domains)
            && (Signal(DnsTunnelLargeResponse, 50) in r
                <==> name.Some? && p[2] / 0x80 == 1 && Be16(p[6], p[7]) > 0 && |p| >= 400)
  {
    var tm, name := Expected(f), NameIn(w.lib, f);
    var r, stages := ResultAt(w, s, pkt, now).signals, StagesAt(w, s, pkt, tm, now);
    CarriedIsRead(pkt, f);
    ResultLists(w, s, pkt, tm, now);
    FrameNameStages(w, s, pkt, f, now);
    ListedDecides(r, stages, w.lib, w.domains, name, IsKnownName(w, s, name), f.payload);
    TunnelDecides(r, stages, w.lib, w.domains, name, IsKnownName(w, s, name), f.payload);
  }

  predicate IsKnownName(w: Setting, s: State, name: Option<Text>) {
    name.Some? && w.lib.lower(name.value) in s.known.domains
  }

  lemma {:induction false} FrameNameStages(w: Setting, s: State, pkt: RawPacket, f: Frame, now: real)
    requires Carries(pkt, f)
    ensures var stages, name := StagesAt(w, s, pkt, Expected(f), now), NameIn(w.lib, f);
            NameStagesAsk(stages, w.lib, w.domains, name, IsKnownName(w, s, name), f.payload)
  {
    CarriedIsRead(pkt, f);
    QueryNameIsRead(w.lib, pkt, f);
    NameStagesAt(w, s, pkt, Expected(f), now);
  }

  // --- How often a name is complained about ------------------------------------------------------------------------

  function Times(s: seq<Signal>, x: Signal): nat {
    multiset(s)[x]
  }

  lemma {:induction false} TimesAppend(s: seq<Signal>, t: seq<Signal>, x: Signal)
    ensures Times(s + t, x) == Times(s, x) + Times(t, x)
  {}

  lemma {:induction false} TimesFitting(k: nat, s: seq<Signal>, x: Signal)
    requires Fitting(k, s) && !MayRaise(k, x.name)
    ensures Times(s, x) == 0
  {}

  /** A signal that only the two stages from `k` on can raise occurs as often as both together raise it. */
  lemma {:induction false} TimesOfTwo(stages: seq<Stage>, k: nat, x: Signal)
    requires k + 1 < 15 && |stages| <= 15 && Placed(0, stages)
    requires forall j: nat :: MayRaise(j, x.name) ==> j == k || j == k + 1
    ensures Times(Flatten(stages), x) == (if k < |stages| then Times(stages[k].signals, x) else 0)
                                         + if k + 1 < |stages| then Times(stages[k + 1].signals, x) else 0
  {
    if stages != [] {
      var front, n := Init(stages), |stages| - 1;
      assert forall i :: 0 <= i < n ==> front[i] == stages[i];
      assert Placed(0, front);
      TimesOfTwo(front, k, x);
      TimesAppend(Flatten(front), stages[n].signals, x);
      assert Fitting(0 + n, stages[n].signals);
      if n != k && n != k + 1 {
        TimesFitting(n, stages[n].signals, x);
      }
    }
  }

  /** The length, ending, label and entropy complaints. */
  predicate IsComplaint(n: SignalName) {
    n.DnsLongFqdn? || n.DnsSuspiciousTld? || n.DnsLongLabel? || n.DnsHighEntropy?
  }

  lemma {:induction false} TimesInPayload(lib: Library, p: seq<byte>, name: Text, x: Signal)
    requires Extract(lib, p) == Some(name) && IsComplaint(x.name)
    ensures Times(PayloadSignals(lib, p), x) == Times(NameSignals(lib, name), x)
  {
    var tunnel := [Signal(DnsTunnelLargeResponse, SCORE_DNS_ANOMALY + 5)];
    TimesAppend(NameSignals(lib, name), tunnel, x);
    TimesAppend(NameSignals(lib, name), [], x);
  }

  lemma {:induction false} ComplaintsAdd(stages: seq<Stage>, first: seq<Signal>, second: seq<Signal>, x: Signal)
    requires |stages| == 15 && Placed(0, stages) && IsComplaint(x.name)
    requires stages[11].signals == first && stages[12].signals == second
    ensures Times(Flatten(stages), x) == Times(first, x) + Times(second, x)
  {
    TimesOfTwo(stages, 11, x);
  }

  lemma {:induction false} ComplaintsDecide(
    stages: seq<Stage>, lib: Library, domains: set<Text>, name: Option<Text>, known: bool, payload: seq<byte>,
    x: Signal)
    requires Placed(0, stages) && NameStagesAsk(stages, lib, domains, name, known, payload) && IsComplaint(x.name)
    ensures Times(Flatten(stages), x)
         == if name.None? then 0 else (if known then 1 else 2) * Times(NameSignals(lib, name.value), x)
  {
    ComplaintsAdd(stages, stages[11].signals, stages[12].signals, x);
    if name.Some? {
      TimesInPayload(lib, payload, name.value, x);
    }
  }

  /** Every complaint about a query name is in the result twice, or once if the baseline knows the name. */
  lemma {:induction false} FrameNameIsJudgedTwice(w: Setting, s: State, pkt: RawPacket, f: Frame, now: real, x: Signal)
    requires Carries(pkt, f) && IsComplaint(x.name) && forall p :: AreSignatures(w.scanAll(p))
    ensures var name := NameIn(w.lib, f);
            multiset(ResultAt(w, s, pkt, now).signals)[x]
            == if name.None? then 0
               else (if IsKnownName(w, s, name) then 1 else 2) * multiset(NameSignals(w.lib, name.value))[x]
  {
    var tm, name := Expected(f), NameIn(w.lib, f);
    CarriedIsRead(pkt, f);
    ResultLists(w, s, pkt, tm, now);
    ResultIsArranged(w, s, pkt, now);
    FrameNameStages(w, s, pkt, f, now);
    ComplaintsDecide(StagesAt(w, s, pkt, tm, now), w.lib, w.domains, name, IsKnownName(w, s, name), f.payload, x);
  }

  // --- Listed addresses --------------------------------------------------------------------------------------------

  /** The 32-bit word of an IPv4 address, if that is what it is. */
  function WordFrom(ip: IpAddr): Option<BL.Word> {
    match ip
    case V4(a, b, c, d) => Some(a * 0x100_0000 + b * 0x1_0000 + c * 0x100 + d)
    case V6(_) => None
  }

  predicate IsExact(exact: set<BL.Word>, ip: IpAddr) {
    WordFrom(ip).Some? && WordFrom(ip).value in exact
  }

  ghost predicate IsInBlock(exact: set<BL.Word>, prefixes: seq<BL.Prefix>, ip: IpAddr) {
    WordFrom(ip).Some? && WordFrom(ip).value !in exact && BL.SharesPrefix(prefixes, WordFrom(ip).value)
  }

  lemma {:induction false} AddressAnswer(exact: set<BL.Word>, prefixes: seq<BL.Prefix>, ip: IpAddr)
    ensures BL.IpAnswer(exact, prefixes, ip) == Some(Signal(BlacklistedIp, 90)) <==> IsExact(exact, ip)
    ensures BL.IpAnswer(exact, prefixes, ip) == Some(Signal(BlacklistedCidr, 90)) <==> IsInBlock(exact, prefixes, ip)
  {
    match ip {
      case V4(a, b, c, d) => BL.AddressIsListedIff(exact, prefixes, a, b, c, d);
      case V6(octets) => BL.Ipv6IsNeverListed(exact, prefixes, octets);
    }
  }

  lemma {:induction false} FirstTwoDecide(
    r: seq<Signal>, stages: seq<Stage>, a: Option<Signal>, b: Option<Signal>, x: Signal)
    requires Lists(r, stages) && stages[0].signals == ToSeq(a) && stages[1].signals == ToSeq(b)
    requires forall j: nat :: MayRaise(j, x.name) ==> j == 0 || j == 1
    ensures x in r <==> a == Some(x) || b == Some(x)
  {
    InFlattenIff(stages, x);
    forall j | 0 <= j < |stages| && x in stages[j].signals
      ensures j == 0 || j == 1
    {
      assert Fitting(0 + j, stages[j].signals);
      var i :| 0 <= i < |stages[j].signals| && stages[j].signals[i] == x;
    }
    assert a == Some(x) ==> x in stages[0].signals;
    assert b == Some(x) ==> x in stages[1].signals;
  }

  lemma {:induction false} ListStagesAt(w: Setting, s: State, pkt: RawPacket, tm: TransportMeta, now: real)
    ensures var t := StagesAt(w, s, pkt, tm, now);
            && t[0].signals == ToSeq(BL.IpAnswer(w.exact, w.prefixes, tm.srcIp))
            && t[1].signals == ToSeq(BL.IpAnswer(w.exact, w.prefixes, tm.dstIp))
  {}

  /** Either end of an IPv4 frame is enough to be listed: as an address, or by a prefix if not as an address. */
  lemma {:induction false} FrameEndsDecide(w: Setting, s: State, pkt: RawPacket, f: Frame, now: real)
    requires Carries(pkt, f) && forall p :: AreSignatures(w.scanAll(p))
    ensures var r := ResultAt(w, s, pkt, now).signals;
            && (Signal(BlacklistedIp, 90) in r <==> IsExact(w.exact, Source(f)) || IsExact(w.exact, Destination(f)))
            && (Signal(BlacklistedCidr, 90) in r
                <==> IsInBlock(w.exact, w.prefixes, Source(f)) || IsInBlock(w.exact, w.prefixes, Destination(f)))
  {
    var tm := Expected(f);
    var r, stages := ResultAt(w, s, pkt, now).signals, StagesAt(w, s, pkt, tm, now);
    var src, dst := BL.IpAnswer(w.exact, w.prefixes, Source(f)), BL.IpAnswer(w.exact, w.prefixes, Destination(f));
    CarriedIsRead(pkt, f);
    EndsAreRead(f);
    ResultLists(w, s, pkt, tm, now);
    ListStagesAt(w, s, pkt, tm, now);
    FirstTwoDecide(r, stages, src, dst, Signal(BlacklistedIp, 90));
    FirstTwoDecide(r, stages, src, dst, Signal(BlacklistedCidr, 90));
    AddressAnswer(w.exact, w.prefixes, Source(f));
    AddressAnswer(w.exact, w.prefixes, Destination(f));
  }

  // --- What the detectors are shown --------------------------------------------------------------------------------

  /** The rate limiter counts every frame against its source, with its length on the wire. */
  function RateViewOf(pkt: RawPacket, f: Frame, now: real): RL.Packet
    requires WellFormed(f)
  {
    RL.Packet(Source(f), pkt.origLen, f.transport.Tcp? && f.transport.flags.syn && !f.transport.flags.ack, now)
  }

  lemma {:induction false} DetectorsSee(pkt: RawPacket, f: Frame, now: real)
    requires WellFormed(f)
    ensures var tm := Expected(f);
            && RatePacket(pkt, tm, now) == RateViewOf(pkt, f, now)
            && ProbeOf(tm, now) == (if PortTo(f).None? then None else Some(PS.Probe(Source(f), PortTo(f).value, now)))
  {
    EndsAreRead(f);
    assert Expected(f).tcpFlags == if f.transport.Tcp? then Some(f.transport.flags) else None;
  }

  /** Only TCP is a segment, and it is one in the direction it travels. */
  lemma {:induction false} FloodDetectorSees(f: Frame, now: real)
    requires WellFormed(f)
    ensures SegmentOf(Expected(f), now)
         == match f.transport
            case Tcp(src, dst, _, _, flags, _, _) => Some(SF.Segment(Source(f), Destination(f), src, dst, flags, now))
            case Udp(_, _, _) => None
            case Icmp(_, _, _) => None
            case Other(_) => None
  {
    EndsAreRead(f);
    assert Expected(f).tcpFlags == if f.transport.Tcp? then Some(f.transport.flags) else None;
  }

  /**
   What the logs grow by: every frame is one packet of its source, TCP and UDP frames are probes of their
   destination port, and TCP frames are segments.
   */
  lemma {:induction false} FrameIsCounted(w: Setting, s: State, pkt: RawPacket, f: Frame, now: real)
    requires Carries(pkt, f)
    ensures var l, l' := s.logs, After(w, s, Arrival(pkt, now)).logs;
            && l'.rate == l.rate + [RL.Seen(RateViewOf(pkt, f, now))]
            && l'.scan == l.scan + (if PortTo(f).None? then []
                                    else [PS.Probed(PS.Probe(Source(f), PortTo(f).value, now))])
            && l'.syn == l.syn + match f.transport
                                 case Tcp(src, dst, _, _, flags, _, _) =>
                                   [SF.Seen(SF.Segment(Source(f), Destination(f), src, dst, flags, now))]
                                 case Udp(_, _, _) => []
                                 case Icmp(_, _, _) => []
                                 case Other(_) => []
  {
    CarriedIsRead(pkt, f);
    DetectorsSee(pkt, f, now);
    FloodDetectorSees(f, now);
  }

  lemma {:induction false} CounterStagesAt(w: Setting, s: State, pkt: RawPacket, tm: TransportMeta, now: real)
    ensures var t := StagesAt(w, s, pkt, tm, now);
            && t[2].signals == ToSeq(RateOf(w.limits, s.logs.rate, RatePacket(pkt, tm, now)))
            && t[3].signals == ToSeq(ScanOf(w.scanConfig, s.logs.scan, tm, now))
            && t[4].signals == SynOf(w.synConfig, s.logs.syn, tm, now)
  {}

  lemma {:induction false} FrameRateStage(w: Setting, s: State, pkt: RawPacket, f: Frame, now: real)
    requires Carries(pkt, f)
    ensures var h := RL.PacketsOf(s.logs.rate, Source(f));
            StagesAt(w, s, pkt, Expected(f), now)[2].signals
            == ToSeq(RL.Verdict(w.limits, h + [RateViewOf(pkt, f, now)], |h|))
  {
    DetectorsSee(pkt, f, now);
    CounterStagesAt(w, s, pkt, Expected(f), now);
  }

  lemma {:induction false} OptionDecides(r: seq<Signal>, stages: seq<Stage>, k: nat, o: Option<Signal>, x: Signal)
    requires Lists(r, stages) && k < 15 && stages[k].signals == ToSeq(o)
    requires OnlyIn(k, x.name)
    ensures x in r <==> o == Some(x)
  {
    StageDecides(r, stages, k, x);
  }

  /** A rate signal is in the result exactly if it is what the limiter says of the source's own packets. */
  lemma {:induction false} FrameRateDecides(w: Setting, s: State, pkt: RawPacket, f: Frame, now: real, x: Signal)
    requires Carries(pkt, f) && forall p :: AreSignatures(w.scanAll(p))
    requires x.name.RatePackets? || x.name.RateBytes? || x.name.RateConnections?
    ensures var h := RL.PacketsOf(s.logs.rate, Source(f));
            x in ResultAt(w, s, pkt, now).signals
            <==> RL.Verdict(w.limits, h + [RateViewOf(pkt, f, now)], |h|) == Some(x)
  {
    CarriedIsRead(pkt, f);
    ResultLists(w, s, pkt, Expected(f), now);
    FrameRateStage(w, s, pkt, f, now);
    CounterNames(x.name);
    var h := RL.PacketsOf(s.logs.rate, Source(f));
    OptionDecides(ResultAt(w, s, pkt, now).signals, StagesAt(w, s, pkt, Expected(f), now), 2,
                  RL.Verdict(w.limits, h + [RateViewOf(pkt, f, now)], |h|), x);
  }

  /** What the flood detector says of a frame: nothing, unless it is TCP. */
  function FloodAnswer(w: Setting, s: State, f: Frame, now: real): seq<Signal>
    requires WellFormed(f)
  {
    match f.transport
    case Tcp(src, dst, _, _, flags, _, _) =>
      SF.Verdict(w.synConfig, s.logs.syn, SF.Segment(Source(f), Destination(f), src, dst, flags, now))
    case Udp(_, _, _) => []
    case Icmp(_, _, _) => []
    case Other(_) => []
  }

  lemma {:induction false} FrameFloodStage(w: Setting, s: State, pkt: RawPacket, f: Frame, now: real)
    requires Carries(pkt, f)
    ensures StagesAt(w, s, pkt, Expected(f), now)[4].signals == FloodAnswer(w, s, f, now)
  {
    FloodDetectorSees(f, now);
    CounterStagesAt(w, s, pkt, Expected(f), now);
  }

  /** A flood, half-open, RST or Xmas signal is in the result exactly if the frame is TCP and its segment raises it. */
  lemma {:induction false} FrameFloodDecides(w: Setting, s: State, pkt: RawPacket, f: Frame, now: real, x: Signal)
    requires Carries(pkt, f) && forall p :: AreSignatures(w.scanAll(p))
    requires x.name.SynFlood? || x.name.HalfOpenHigh? || x.name.RstInjection? || x.name.XmasScan?
    ensures x in ResultAt(w, s, pkt, now).signals <==> x in FloodAnswer(w, s, f, now)
  {
    CarriedIsRead(pkt, f);
    ResultLists(w, s, pkt, Expected(f), now);
    FrameFloodStage(w, s, pkt, f, now);
    CounterNames(x.name);
    StageDecides(ResultAt(w, s, pkt, now).signals, StagesAt(w, s, pkt, Expected(f), now), 4, x);
  }

  /** What the scan detector says of a frame: nothing, unless it has a destination port. */
  function ScanAnswer(w: Setting, s: State, f: Frame, now: real): Option<Signal>
    requires WellFormed(f)
  {
    if PortTo(f).None? then None
    else PS.Observe(w.scanConfig, PS.Run(w.scanConfig, PS.Unswept(s.logs.scan)),
                    PS.Probe(Source(f), PortTo(f).value, now)).1
  }

  lemma {:induction false} FrameScanStage(w: Setting, s: State, pkt: RawPacket, f: Frame, now: real)
    requires Carries(pkt, f)
    ensures StagesAt(w, s, pkt, Expected(f), now)[3].signals == ToSeq(ScanAnswer(w, s, f, now))
  {
    DetectorsSee(pkt, f, now);
    CounterStagesAt(w, s, pkt, Expected(f), now);
  }

  /** A scan signal is in the result exactly if it is what the detector, never swept, says of the frame. */
  lemma {:induction false} FrameScanDecides(w: Setting, s: State, pkt: RawPacket, f: Frame, now: real, x: Signal)
    requires Carries(pkt, f) && forall p :: AreSignatures(w.scanAll(p))
    requires x.name.PortScanHorizontal? || x.name.PortScanVertical?
    ensures x in ResultAt(w, s, pkt, now).signals <==> ScanAnswer(w, s, f, now) == Some(x)
  {
    CarriedIsRead(pkt, f);
    ResultLists(w, s, pkt, Expected(f), now);
    FrameScanStage(w, s, pkt, f, now);
    CounterNames(x.name);
    OptionDecides(ResultAt(w, s, pkt, now).signals, StagesAt(w, s, pkt, Expected(f), now), 3,
                  ScanAnswer(w, s, f, now), x);
  }

  lemma {:induction false} SignatureStageAt(w: Setting, s: State, pkt: RawPacket, f: Frame, now: real)
    requires Carries(pkt, f)
    ensures StagesAt(w, s, pkt, Expected(f), now)[9].signals == if f.payload != [] then w.scanAll(f.payload) else []
  {
    CarriedIsRead(pkt, f);
  }

  lemma {:induction false} SignatureDecides(r: seq<Signal>, stages: seq<Stage>, found: seq<Signal>, x: Signal)
    requires Lists(r, stages) && stages[9].signals == found && x.name.PayloadSignature?
    ensures x in r <==> x in found
  {
    StageDecides(r, stages, 9, x);
  }

  /** A signature signal is in the result exactly if the scanner finds it in the payload; headers are not scanned. */
  lemma {:induction false} FramePayloadDecides(w: Setting, s: State, pkt: RawPacket, f: Frame, now: real, x: Signal)
    requires Carries(pkt, f) && x.name.PayloadSignature? && forall p :: AreSignatures(w.scanAll(p))
    ensures x in ResultAt(w, s, pkt, now).signals <==> f.payload != [] && x in w.scanAll(f.payload)
  {
    CarriedIsRead(pkt, f);
    ResultLists(w, s, pkt, Expected(f), now);
    SignatureStageAt(w, s, pkt, f, now);
    SignatureDecides(ResultAt(w, s, pkt, now).signals, StagesAt(w, s, pkt, Expected(f), now),
                     if f.payload != [] then w.scanAll(f.payload) else [], x);
  }

  // --- What a frame teaches ----------------------------------------------------------------------------------------

  /** The share of the protocol moves a thousandth of the way to 1, from 0 if it was unseen; no other share moves. */
  predicate TeachesProtocol(before: map<byte, real>, after: map<byte, real>, proto: byte) {
    && after.Keys == before.Keys + {proto}
    && (forall q :: q in before && q != proto ==> after[q] == before[q])
    && 1000.0 * (after[proto] - ShareOf(before, proto)) == 1.0 - ShareOf(before, proto)
  }

  lemma {:induction false} ProtocolIsTaught(before: map<byte, real>, proto: byte)
    ensures TeachesProtocol(before, SeenProtocol(before, proto), proto)
  {}

  /** All of it: the ports, the destination, the country and the name, if there are any, and the protocol. */
  ghost predicate Teaches(
    lower: Text -> Text, k: Knowledge, k': Knowledge, port: Option<u16>, ip: IpAddr, country: Option<Country>,
    name: Option<Text>, proto: byte)
  {
    && k'.phase == k.phase
    && (forall p :: p in k'.ports <==> p in k.ports || port == Some(p))
    && (forall x :: x in k'.dstIps <==> x in k.dstIps || x == ip)
    && (forall c :: c in k'.countries <==> c in k.countries || country == Some(c))
    && (forall d :: d in k'.domains <==> d in k.domains || (name.Some? && d == lower(name.value)))
    && TeachesProtocol(k.protocols, k'.protocols, proto)
  }

  lemma {:induction false} LearnedTeaches(
    lower: Text -> Text, k: Knowledge, tm: TransportMeta, country: Option<Country>, name: Option<Text>)
    ensures Teaches(lower, k, Learned(lower, k, tm, country, name), tm.dstPort, tm.dstIp, country, name, tm.protocol)
  {
    ProtocolIsTaught(k.protocols, tm.protocol);
  }

  lemma {:induction false} KnownAfter(w: Setting, s: State, pkt: RawPacket, tm: TransportMeta, now: real)
    requires pkt.transport == Some(tm)
    ensures After(w, s, Arrival(pkt, now)).known
         == if s.known.phase.Learning? || ResultAt(w, s, pkt, now).IsClean()
            then Learned(w.lib.lower, s.known, tm, w.countryCode(tm.srcIp), QueryName(w.lib, pkt, tm)) else s.known
  {}

  /** While learning, and in Refinement exactly if its total is below 30, a frame teaches all it carries. */
  lemma {:induction false} FrameTeaches(w: Setting, s: State, pkt: RawPacket, f: Frame, now: real)
    requires Carries(pkt, f)
    ensures var k, k' := s.known, After(w, s, Arrival(pkt, now)).known;
            if k.phase == Learning || ResultAt(w, s, pkt, now).total < 30 then
              Teaches(w.lib.lower, k, k', PortTo(f), Destination(f), w.countryCode(Source(f)), NameIn(w.lib, f),
                      Protocol(f))
            else
              k' == k
  {
    var tm := Expected(f);
    CarriedIsRead(pkt, f);
    EndsAreRead(f);
    QueryNameIsRead(w.lib, pkt, f);
    assert tm.protocol == Protocol(f);
    KnownAfter(w, s, pkt, tm, now);
    LearnedTeaches(w.lib.lower, s.known, tm, w.countryCode(tm.srcIp), NameIn(w.lib, f));
  }
}
