/** The reported flag reason: which detector it names, and when that is the one that scored highest. */
module FlagReason {
  import opened Types
  import opened Score
  import opened Capture
  import opened Dns
  import opened Analysis

  predicate FirstToFlag(stages: seq<Stage>, k: nat)
    requires k < |stages|
  {
    stages[k].Flags() && forall j :: 0 <= j < k ==> !stages[j].Flags()
  }

  /** The reason is 0 when no detector with a reason answers, and otherwise that of the first one that does. */
  lemma {:induction false} FlagIsFirstDetectors(stages: seq<Stage>)
    ensures FlagOf(stages) == 0 ==> forall k :: 0 <= k < |stages| ==> !stages[k].Flags()
    ensures FlagOf(stages) != 0 ==>
            exists k :: 0 <= k < |stages| && FirstToFlag(stages, k) && stages[k].reason == FlagOf(stages)
  {
    if stages != [] {
      var prior := Init(stages);
      FlagIsFirstDetectors(prior);
      if FlagOf(prior) != 0 {
        var k :| 0 <= k < |prior| && FirstToFlag(prior, k) && prior[k].reason == FlagOf(prior);
        assert FirstToFlag(stages, k);
      } else if Last(stages).Flags() {
        assert FirstToFlag(stages, |prior|);
      }
    }
  }

  // --- The documented meaning ------------------------------------------------------------------------------

  ghost predicate RaisedUnder(stages: seq<Stage>, reason: int, score: int) {
    exists k, x :: 0 <= k < |stages| && stages[k].reason == reason && x in stages[k].signals && x.score >= score
  }

  /** Some signal raised under `reason` scores at least as much as every signal of stage `j`. */
  ghost predicate Outscored(stages: seq<Stage>, reason: int, j: nat)
    requires j < |stages|
  {
    forall y :: y in stages[j].signals ==> RaisedUnder(stages, reason, y.score)
  }

  /** What the reason is documented to be: that of the highest-scoring signal. */
  ghost predicate FlagNamesLoudest(stages: seq<Stage>) {
    forall j :: 0 <= j < |stages| ==> Outscored(stages, FlagOf(stages), j)
  }

  predicate AtMost(s: seq<Signal>, bound: int) {
    forall i :: 0 <= i < |s| ==> s[i].score <= bound
  }

  /** The highest score of some signals, 0 if there is none. */
  function Peak(s: seq<Signal>): (r: int)
    ensures AtMost(s, r)
  {
    if s == [] then 0 else Max(Peak(Init(s)), Last(s).score)
  }

  /** Every stage with another reason keeps to the bound. */
  predicate OthersAtMost(stages: seq<Stage>, reason: int, bound: int) {
    forall j :: 0 <= j < |stages| && stages[j].reason != reason ==> AtMost(stages[j].signals, bound)
  }

  predicate OwnAtMost(stages: seq<Stage>, reason: int, bound: int) {
    forall j :: 0 <= j < |stages| && stages[j].reason == reason ==> AtMost(stages[j].signals, bound)
  }

  /** With the loudest signal under the reported reason at `bound`, the others decide. */
  lemma {:induction false} BoundDecides(stages: seq<Stage>, reason: int, bound: int, k: nat, x: Signal)
    requires FlagOf(stages) == reason
    requires k < |stages| && stages[k].reason == reason && x in stages[k].signals && x.score == bound
    requires OwnAtMost(stages, reason, bound)
    ensures FlagNamesLoudest(stages) <==> OthersAtMost(stages, reason, bound)
  {
    if OthersAtMost(stages, reason, bound) {
      forall j, y | 0 <= j < |stages| && y in stages[j].signals
        ensures RaisedUnder(stages, reason, y.score)
      {
        assert AtMost(stages[j].signals, bound);
        assert x.score >= y.score;
      }
    }
    if FlagNamesLoudest(stages) {
      forall j, i | 0 <= j < |stages| && stages[j].reason != reason && 0 <= i < |stages[j].signals|
        ensures stages[j].signals[i].score <= bound
      {
        BoundedBy(stages, reason, bound, j, stages[j].signals[i]);
      }
    }
  }

  lemma {:induction false} BoundedBy(stages: seq<Stage>, reason: int, bound: int, j: nat, y: Signal)
    requires j < |stages| && y in stages[j].signals && Outscored(stages, reason, j)
    requires OwnAtMost(stages, reason, bound)
    ensures y.score <= bound
  {
    var k, x :| 0 <= k < |stages| && stages[k].reason == reason && x in stages[k].signals && x.score >= y.score;
    assert AtMost(stages[k].signals, bound);
  }

  /** Without a reason there is nothing to contradict: whatever was raised was raised under none. */
  lemma {:induction false} NoReasonNamesLoudest(stages: seq<Stage>)
    requires FlagOf(stages) == 0
    ensures FlagNamesLoudest(stages)
  {
    FlagIsFirstDetectors(stages);
    forall j, y | 0 <= j < |stages| && y in stages[j].signals
      ensures RaisedUnder(stages, 0, y.score)
    {
      assert !stages[j].Flags() && stages[j].reason == 0;
      assert y.score >= y.score;
    }
  }

  // --- The engine's own stages -------------------------------------------------------------------------------

  /** The signals of the engine's stages, one field a stage. */
  datatype Parts = Parts(
    src: seq<Signal>, dst: seq<Signal>, rate: seq<Signal>, scan: seq<Signal>, syn: seq<Signal>,
    icmp: seq<Signal>, fragment: seq<Signal>, truncated: seq<Signal>, geo: seq<Signal>, payload: seq<Signal>,
    listed: seq<Signal>, name: seq<Signal>, tunnel: seq<Signal>, port: seq<Signal>, vlan: seq<Signal>)

  function Lay(p: Parts): (s: seq<Stage>)
    ensures |s| == 15
  {
    [Stage(FLAG_BLACKLISTED, p.src), Stage(FLAG_BLACKLISTED, p.dst), Stage(FLAG_RATE_EXCEEDED, p.rate),
     Stage(FLAG_PORT_SCAN, p.scan), Stage(FLAG_SYN_FLOOD, p.syn), Stage(0, p.icmp), Stage(0, p.fragment),
     Stage(0, p.truncated), Stage(FLAG_GEO_ANOMALY, p.geo), Stage(FLAG_PAYLOAD_SIG, p.payload),
     Stage(FLAG_BLACKLISTED, p.listed), Stage(FLAG_DNS_ANOMALY, p.name), Stage(FLAG_DNS_ANOMALY, p.tunnel),
     Stage(0, p.port), Stage(0, p.vlan)]
  }

  function PartsOf(lib: Library, pkt: RawPacket, tm: TransportMeta, a: Answers, r: Reads): Parts {
    Parts(
      ToSeq(a.srcListed), ToSeq(a.dstListed), ToSeq(a.rate), ToSeq(a.scan), a.syn,
      When(UnusualIcmp(tm), Signal(IcmpUnusualType, 25)), When(Fragmented(tm), Signal(IpFragmentation, 20)),
      When(pkt.truncated, Signal(PacketTruncated, 10)),
      When(r.newCountry, Signal(GeoNewCountry, SCORE_GEO_ANOMALY)), a.payload, ToSeq(a.domainListed),
      NameStage(lib, QueryName(lib, pkt, tm), r), PayloadStage(lib, pkt, tm), PortStage(tm, r),
      When(ReservedVlan(tm), Signal(VlanReservedId, 20)))
  }

  lemma {:induction false} LayInGroups(p: Parts)
    ensures Lay(p) ==
            [Stage(FLAG_BLACKLISTED, p.src), Stage(FLAG_BLACKLISTED, p.dst)]
            + [Stage(FLAG_RATE_EXCEEDED, p.rate), Stage(FLAG_PORT_SCAN, p.scan), Stage(FLAG_SYN_FLOOD, p.syn)]
            + [Stage(0, p.icmp), Stage(0, p.fragment), Stage(0, p.truncated)]
            + [Stage(FLAG_GEO_ANOMALY, p.geo)] + [Stage(FLAG_PAYLOAD_SIG, p.payload)]
            + [Stage(FLAG_BLACKLISTED, p.listed), Stage(FLAG_DNS_ANOMALY, p.name), Stage(FLAG_DNS_ANOMALY, p.tunnel)]
            + [Stage(0, p.port)] + [Stage(0, p.vlan)]
  {}

  lemma {:induction false} StagesAreLaid(lib: Library, pkt: RawPacket, tm: TransportMeta, a: Answers, r: Reads)
    ensures Stages(lib, pkt, tm, a, r) == Lay(PartsOf(lib, pkt, tm, a, r))
  {
    LayInGroups(PartsOf(lib, pkt, tm, a, r));
  }

  /** All signals of a part score `score`. */
  predicate All(s: seq<Signal>, score: int) {
    forall i :: 0 <= i < |s| ==> s[i].score == score
  }

  predicate Within(s: seq<Signal>, low: int, high: int) {
    forall i :: 0 <= i < |s| ==> low <= s[i].score <= high
  }

  /** The scores the engine's detectors give. */
  predicate Scored(p: Parts) {
    && All(p.src, SCORE_BLACKLIST_IP) && All(p.dst, SCORE_BLACKLIST_IP) && All(p.listed, SCORE_BLACKLIST_DOMAIN)
    && All(p.rate, SCORE_RATE_EXCEEDED) && All(p.scan, SCORE_PORT_SCAN) && All(p.geo, SCORE_GEO_ANOMALY)
    && Within(p.syn, 25, SCORE_SYN_FLOOD) && Within(p.payload, 35, SCORE_PAYLOAD_SIG)
    && Within(p.name, 15, SCORE_DNS_ANOMALY) && Within(p.tunnel, 15, SCORE_DNS_ANOMALY + 5)
    && All(p.icmp, 25) && All(p.fragment, 20) && All(p.truncated, 10) && All(p.vlan, 20)
    && Within(p.port, SCORE_UNUSUAL_PORT_GLOBAL, SCORE_UNUSUAL_PORT_NETWORK)
  }

  /**
   When the reported reason is that of the highest-scoring signal, by the first detector that answers.
   A listed address always outscores the rest. A rate signal does if there is no scan, no SYN, payload,
   name or tunnel signal above it and no listed domain; and so on down the order. With no reason to
   report there is nothing to get wrong.
   */
  predicate FirstIsLoudest(p: Parts) {
    if p.src != [] || p.dst != [] then true
    else if p.rate != [] then
      p.scan == [] && p.listed == [] && AtMost(p.syn, SCORE_RATE_EXCEEDED) && AtMost(p.payload, SCORE_RATE_EXCEEDED)
      && AtMost(p.name, SCORE_RATE_EXCEEDED) && AtMost(p.tunnel, SCORE_RATE_EXCEEDED)
    else if p.scan != [] then
      p.listed == [] && AtMost(p.syn, SCORE_PORT_SCAN) && AtMost(p.payload, SCORE_PORT_SCAN)
    else if p.syn != [] then
      var top := Peak(p.syn);
      p.listed == [] && AtMost(p.geo, top) && AtMost(p.payload, top) && AtMost(p.name, top) && AtMost(p.tunnel, top)
      && AtMost(p.port, top)
    else if p.geo != [] then
      p.listed == [] && AtMost(p.payload, SCORE_GEO_ANOMALY)
      && AtMost(p.name, SCORE_GEO_ANOMALY) && AtMost(p.tunnel, SCORE_GEO_ANOMALY)
    else if p.payload != [] then
      var top := Peak(p.payload);
      p.listed == [] && AtMost(p.name, top) && AtMost(p.tunnel, top)
    else if p.listed != [] then true
    else if p.name != [] || p.tunnel != [] then
      var top := Max(Peak(p.name), Peak(p.tunnel));
      AtMost(p.icmp, top) && AtMost(p.fragment, top) && AtMost(p.port, top) && AtMost(p.vlan, top)
    else true
  }

  /** The stage that sets the reason. */
  function FirstPart(p: Parts): (k: int)
    ensures -1 <= k < 15
  {
    if p.src != [] then 0 else if p.dst != [] then 1 else if p.rate != [] then 2 else if p.scan != [] then 3
    else if p.syn != [] then 4 else if p.geo != [] then 8 else if p.payload != [] then 9 else if p.listed != [] then 10
    else if p.name != [] then 11 else if p.tunnel != [] then 12 else -1
  }

  lemma {:induction false} FlagOfFirst(stages: seq<Stage>, k: nat)
    requires k < |stages| && FirstToFlag(stages, k)
    ensures FlagOf(stages) == stages[k].reason
  {
    FlagIsFirstDetectors(stages);
    assert stages[k].Flags();
  }

  lemma {:induction false} FlagOfParts(p: Parts)
    ensures FlagOf(Lay(p)) == if FirstPart(p) == -1 then 0 else Lay(p)[FirstPart(p)].reason
  {
    var k := FirstPart(p);
    FlagIsFirstDetectors(Lay(p));
    if k != -1 {
      assert FirstToFlag(Lay(p), k);
      FlagOfFirst(Lay(p), k);
    }
  }

  /** `OthersAtMost`, stage by stage. */
  predicate OthersQuiet(p: Parts, reason: int, bound: int) {
    && (reason != FLAG_BLACKLISTED ==> AtMost(p.src, bound) && AtMost(p.dst, bound) && AtMost(p.listed, bound))
    && (reason != FLAG_RATE_EXCEEDED ==> AtMost(p.rate, bound))
    && (reason != FLAG_PORT_SCAN ==> AtMost(p.scan, bound))
    && (reason != FLAG_SYN_FLOOD ==> AtMost(p.syn, bound))
    && (reason != FLAG_GEO_ANOMALY ==> AtMost(p.geo, bound))
    && (reason != FLAG_PAYLOAD_SIG ==> AtMost(p.payload, bound))
    && (reason != FLAG_DNS_ANOMALY ==> AtMost(p.name, bound) && AtMost(p.tunnel, bound))
    && AtMost(p.icmp, bound) && AtMost(p.fragment, bound) && AtMost(p.truncated, bound)
    && AtMost(p.port, bound) && AtMost(p.vlan, bound)
  }

  lemma {:induction false} OthersStageByStage(p: Parts, reason: int, bound: int)
    requires reason != 0
    ensures OthersAtMost(Lay(p), reason, bound) <==> OthersQuiet(p, reason, bound)
  {
    if OthersAtMost(Lay(p), reason, bound) {
      OthersGiven(Lay(p), p, reason, bound);
    }
  }

  lemma {:induction false} OthersGiven(s: seq<Stage>, p: Parts, reason: int, bound: int)
    requires reason != 0 && s == Lay(p) && OthersAtMost(s, reason, bound)
    ensures OthersQuiet(p, reason, bound)
  {
    assert s[0].signals == p.src && s[1].signals == p.dst && s[2].signals == p.rate && s[3].signals == p.scan;
    assert s[4].signals == p.syn && s[5].signals == p.icmp && s[6].signals == p.fragment && s[7].signals == p.truncated;
    assert s[8].signals == p.geo && s[9].signals == p.payload && s[10].signals == p.listed && s[11].signals == p.name;
    assert s[12].signals == p.tunnel && s[13].signals == p.port && s[14].signals == p.vlan;
  }

  /** The loudest signal reported under a reason, with the stage it stands in. */
  lemma {:induction false} PartsDecide(p: Parts, reason: int, bound: int, k: nat, x: Signal)
    requires reason != 0 && FlagOf(Lay(p)) == reason
    requires k < 15 && Lay(p)[k].reason == reason && x in Lay(p)[k].signals && x.score == bound
    requires OwnAtMost(Lay(p), reason, bound)
    ensures FlagNamesLoudest(Lay(p)) <==> OthersQuiet(p, reason, bound)
  {
    BoundDecides(Lay(p), reason, bound, k, x);
    OthersStageByStage(p, reason, bound);
  }

  lemma {:induction false} AllAtMost(s: seq<Signal>, score: int, bound: int)
    requires All(s, score)
    ensures AtMost(s, bound) <==> s == [] || score <= bound
  {
    if s != [] {
      assert s[0].score == score;
    }
  }

  /** The stages that score alike, against a bound. */
  lemma {:induction false} FixedAtMost(p: Parts, bound: int)
    requires Scored(p)
    ensures AtMost(p.src, bound) <==> p.src == [] || SCORE_BLACKLIST_IP <= bound
    ensures AtMost(p.dst, bound) <==> p.dst == [] || SCORE_BLACKLIST_IP <= bound
    ensures AtMost(p.listed, bound) <==> p.listed == [] || SCORE_BLACKLIST_DOMAIN <= bound
    ensures AtMost(p.rate, bound) <==> p.rate == [] || SCORE_RATE_EXCEEDED <= bound
    ensures AtMost(p.scan, bound) <==> p.scan == [] || SCORE_PORT_SCAN <= bound
    ensures AtMost(p.geo, bound) <==> p.geo == [] || SCORE_GEO_ANOMALY <= bound
    ensures AtMost(p.icmp, bound) <==> p.icmp == [] || 25 <= bound
    ensures AtMost(p.fragment, bound) <==> p.fragment == [] || 20 <= bound
    ensures AtMost(p.truncated, bound) <==> p.truncated == [] || 10 <= bound
    ensures AtMost(p.vlan, bound) <==> p.vlan == [] || 20 <= bound
  {
    AllAtMost(p.src, SCORE_BLACKLIST_IP, bound);
    AllAtMost(p.dst, SCORE_BLACKLIST_IP, bound);
    AllAtMost(p.listed, SCORE_BLACKLIST_DOMAIN, bound);
    AllAtMost(p.rate, SCORE_RATE_EXCEEDED, bound);
    AllAtMost(p.scan, SCORE_PORT_SCAN, bound);
    AllAtMost(p.geo, SCORE_GEO_ANOMALY, bound);
    AllAtMost(p.icmp, 25, bound);
    AllAtMost(p.fragment, 20, bound);
    AllAtMost(p.truncated, 10, bound);
    AllAtMost(p.vlan, 20, bound);
  }

  /** The stages that vary, below a bound at their ceiling. */
  lemma {:induction false} VaryingAtMost(p: Parts, bound: int)
    requires Scored(p)
    ensures SCORE_SYN_FLOOD <= bound ==> AtMost(p.syn, bound)
    ensures SCORE_PAYLOAD_SIG <= bound ==> AtMost(p.payload, bound)
    ensures SCORE_DNS_ANOMALY <= bound ==> AtMost(p.name, bound)
    ensures SCORE_DNS_ANOMALY + 5 <= bound ==> AtMost(p.tunnel, bound)
    ensures SCORE_UNUSUAL_PORT_NETWORK <= bound ==> AtMost(p.port, bound)
  {}

  lemma {:induction false} PeakIsRaised(s: seq<Signal>) returns (x: Signal)
    requires s != [] && forall i :: 0 <= i < |s| ==> s[i].score >= 0
    ensures x in s && x.score == Peak(s)
  {
    x := Last(s);
    if |s| > 1 {
      var y := PeakIsRaised(Init(s));
      if y.score > x.score {
        x := y;
      }
    }
  }

  lemma {:induction false} PeakWithin(s: seq<Signal>, low: int, high: int) returns (x: Signal)
    requires Within(s, low, high) && 0 <= low && s != []
    ensures x in s && x.score == Peak(s) && low <= Peak(s) <= high && AtMost(s, Peak(s))
  {
    x := PeakIsRaised(s);
  }

  lemma {:induction false} ListedFirst(p: Parts)
    requires Scored(p) && (p.src != [] || p.dst != [])
    ensures FlagNamesLoudest(Lay(p))
  {
    FlagOfParts(p);
    FixedAtMost(p, SCORE_BLACKLIST_IP);
    VaryingAtMost(p, SCORE_BLACKLIST_IP);
    var k := FirstPart(p);
    PartsDecide(p, FLAG_BLACKLISTED, SCORE_BLACKLIST_IP, k, Lay(p)[k].signals[0]);
  }

  lemma {:induction false} RateFirst(p: Parts)
    requires Scored(p) && FirstPart(p) == 2
    ensures FlagNamesLoudest(Lay(p)) <==> FirstIsLoudest(p)
  {
    FlagOfParts(p);
    FixedAtMost(p, SCORE_RATE_EXCEEDED);
    VaryingAtMost(p, SCORE_RATE_EXCEEDED);
    PartsDecide(p, FLAG_RATE_EXCEEDED, SCORE_RATE_EXCEEDED, 2, p.rate[0]);
  }

  lemma {:induction false} ScanFirst(p: Parts)
    requires Scored(p) && FirstPart(p) == 3
    ensures FlagNamesLoudest(Lay(p)) <==> FirstIsLoudest(p)
  {
    FlagOfParts(p);
    FixedAtMost(p, SCORE_PORT_SCAN);
    VaryingAtMost(p, SCORE_PORT_SCAN);
    PartsDecide(p, FLAG_PORT_SCAN, SCORE_PORT_SCAN, 3, p.scan[0]);
  }

  lemma {:induction false} SynDecides(p: Parts, x: Signal, top: int)
    requires Scored(p) && FirstPart(p) == 4
    requires x in p.syn && x.score == top && AtMost(p.syn, top) && 25 <= top <= SCORE_SYN_FLOOD
    ensures FlagNamesLoudest(Lay(p)) <==>
            p.listed == [] && AtMost(p.geo, top) && AtMost(p.payload, top) && AtMost(p.name, top)
            && AtMost(p.tunnel, top) && AtMost(p.port, top)
  {
    FlagOfParts(p);
    FixedAtMost(p, top);
    PartsDecide(p, FLAG_SYN_FLOOD, top, 4, x);
  }

  lemma {:induction false} SynFirst(p: Parts)
    requires Scored(p) && FirstPart(p) == 4
    ensures FlagNamesLoudest(Lay(p)) <==> FirstIsLoudest(p)
  {
    var x := PeakWithin(p.syn, 25, SCORE_SYN_FLOOD);
    SynDecides(p, x, Peak(p.syn));
  }

  lemma {:induction false} GeoFirst(p: Parts)
    requires Scored(p) && FirstPart(p) == 8
    ensures FlagNamesLoudest(Lay(p)) <==> FirstIsLoudest(p)
  {
    FlagOfParts(p);
    FixedAtMost(p, SCORE_GEO_ANOMALY);
    VaryingAtMost(p, SCORE_GEO_ANOMALY);
    PartsDecide(p, FLAG_GEO_ANOMALY, SCORE_GEO_ANOMALY, 8, p.geo[0]);
  }

  lemma {:induction false} PayloadDecides(p: Parts, x: Signal, top: int)
    requires Scored(p) && FirstPart(p) == 9
    requires x in p.payload && x.score == top && AtMost(p.payload, top) && 35 <= top <= SCORE_PAYLOAD_SIG
    ensures FlagNamesLoudest(Lay(p)) <==> p.listed == [] && AtMost(p.name, top) && AtMost(p.tunnel, top)
  {
    FlagOfParts(p);
    FixedAtMost(p, top);
    VaryingAtMost(p, top);
    PartsDecide(p, FLAG_PAYLOAD_SIG, top, 9, x);
  }

  lemma {:induction false} PayloadFirst(p: Parts)
    requires Scored(p) && FirstPart(p) == 9
    ensures FlagNamesLoudest(Lay(p)) <==> FirstIsLoudest(p)
  {
    var x := PeakWithin(p.payload, 35, SCORE_PAYLOAD_SIG);
    PayloadDecides(p, x, Peak(p.payload));
  }

  lemma {:induction false} DomainFirst(p: Parts)
    requires Scored(p) && FirstPart(p) == 10
    ensures FlagNamesLoudest(Lay(p))
  {
    FlagOfParts(p);
    FixedAtMost(p, SCORE_BLACKLIST_DOMAIN);
    VaryingAtMost(p, SCORE_BLACKLIST_DOMAIN);
    PartsDecide(p, FLAG_BLACKLISTED, SCORE_BLACKLIST_DOMAIN, 10, p.listed[0]);
  }

  lemma {:induction false} NameDecides(p: Parts, k: nat, x: Signal, top: int)
    requires Scored(p) && (FirstPart(p) == 11 || FirstPart(p) == 12) && 15 <= top
    requires (k == 11 && x in p.name) || (k == 12 && x in p.tunnel)
    requires x.score == top && AtMost(p.name, top) && AtMost(p.tunnel, top)
    ensures FlagNamesLoudest(Lay(p)) <==>
            AtMost(p.icmp, top) && AtMost(p.fragment, top) && AtMost(p.port, top) && AtMost(p.vlan, top)
  {
    FlagOfParts(p);
    FixedAtMost(p, top);
    PartsDecide(p, FLAG_DNS_ANOMALY, top, k, x);
  }

  lemma {:induction false} AtMostMore(s: seq<Signal>, bound: int, more: int)
    requires AtMost(s, bound) && bound <= more
    ensures AtMost(s, more)
  {}

  lemma {:induction false} NameFirst(p: Parts)
    requires Scored(p) && (FirstPart(p) == 11 || FirstPart(p) == 12)
    ensures FlagNamesLoudest(Lay(p)) <==> FirstIsLoudest(p)
  {
    var n, t := Peak(p.name), Peak(p.tunnel);
    AtMostMore(p.name, n, Max(n, t));
    AtMostMore(p.tunnel, t, Max(n, t));
    if p.name != [] && (p.tunnel == [] || n >= t) {
      var x := PeakWithin(p.name, 15, SCORE_DNS_ANOMALY);
      NameDecides(p, 11, x, n);
    } else {
      var x := PeakWithin(p.tunnel, 15, SCORE_DNS_ANOMALY + 5);
      if p.name != [] {
        var _ := PeakWithin(p.name, 15, SCORE_DNS_ANOMALY);
      }
      NameDecides(p, 12, x, t);
    }
  }

  lemma {:induction false} PartsNameLoudestIff(p: Parts)
    requires Scored(p)
    ensures FlagNamesLoudest(Lay(p)) <==> FirstIsLoudest(p)
  {
    match FirstPart(p) {
      case 0 => ListedFirst(p);
      case 1 => ListedFirst(p);
      case 2 => RateFirst(p);
      case 3 => ScanFirst(p);
      case 4 => SynFirst(p);
      case 8 => GeoFirst(p);
      case 9 => PayloadFirst(p);
      case 10 => DomainFirst(p);
      case 11 => NameFirst(p);
      case 12 => NameFirst(p);
      case _ =>
        FlagOfParts(p);
        NoReasonNamesLoudest(Lay(p));
    }
  }

  lemma {:induction false} NameSignalsAreWithin(s: seq<Signal>)
    requires AreNameSignals(s)
    ensures Within(s, 15, SCORE_DNS_ANOMALY)
  {}

  lemma {:induction false} PayloadStageIsWithin(lib: Library, pkt: RawPacket, tm: TransportMeta)
    ensures Within(PayloadStage(lib, pkt, tm), 15, SCORE_DNS_ANOMALY + 5)
  {
    var name := QueryName(lib, pkt, tm);
    if name.Some? {
      NameSignalsScore(lib, name.value);
      NameSignalsAreWithin(NameSignals(lib, name.value));
    }
  }

  lemma {:induction false} NameStageIsWithin(lib: Library, name: Option<Text>, r: Reads)
    ensures Within(NameStage(lib, name, r), 15, SCORE_DNS_ANOMALY)
  {
    if name.Some? {
      NameSignalsScore(lib, name.value);
      NameSignalsAreWithin(NameSignals(lib, name.value));
    }
  }

  lemma {:induction false} AnswersAreScored(a: Answers)
    requires Plausible(a)
    ensures All(ToSeq(a.srcListed), SCORE_BLACKLIST_IP) && All(ToSeq(a.dstListed), SCORE_BLACKLIST_IP)
    ensures All(ToSeq(a.rate), SCORE_RATE_EXCEEDED) && All(ToSeq(a.scan), SCORE_PORT_SCAN)
    ensures Within(a.syn, 25, SCORE_SYN_FLOOD) && Within(a.payload, 35, SCORE_PAYLOAD_SIG)
    ensures All(ToSeq(a.domainListed), SCORE_BLACKLIST_DOMAIN)
  {}

  lemma {:induction false} PartsAreScored(lib: Library, pkt: RawPacket, tm: TransportMeta, a: Answers, r: Reads)
    requires Plausible(a)
    ensures Scored(PartsOf(lib, pkt, tm, a, r))
  {
    AnswersAreScored(a);
    NameStageIsWithin(lib, QueryName(lib, pkt, tm), r);
    PayloadStageIsWithin(lib, pkt, tm);
  }

  /** For every packet and every answer: the documented meaning holds exactly when the first to answer is loudest. */
  lemma {:induction false} FlagNamesLoudestIff(
    lib: Library, pkt: RawPacket, tm: TransportMeta, a: Answers, r: Reads)
    requires Plausible(a)
    ensures FlagNamesLoudest(Stages(lib, pkt, tm, a, r)) <==> FirstIsLoudest(PartsOf(lib, pkt, tm, a, r))
  {
    StagesAreLaid(lib, pkt, tm, a, r);
    PartsAreScored(lib, pkt, tm, a, r);
    PartsNameLoudestIff(PartsOf(lib, pkt, tm, a, r));
  }

  // --- A packet whose reason is not that of its loudest signal -------------------------------------------------

  /** The payload of a DNS query for the one-letter name `a`. */
  const QUERY: seq<byte> := [0, 1, 1, 0, 0, 1, 0, 0, 0, 0, 0, 0, 1, 97, 0, 0, 1, 0, 1]

  /** The IPv4 and UDP headers that carry it from 10.0.0.1, port 40000, to port 53 of 10.0.0.2. */
  const QUERY_IP: seq<byte> := [0x45, 0, 0, 47, 0, 0, 0, 0, 64, 17, 0, 0, 10, 0, 0, 1, 10, 0, 0, 2]

  const QUERY_UDP: seq<byte> := [0x9C, 0x40, 0, 53, 0, 27, 0, 0]

  const QUERY_META := TransportMeta(
    V4(10, 0, 0, 1), V4(10, 0, 0, 2), Some(40000), Some(53), 17, None, 64, 0, 0, None, None, None, None, 28)

  const QUERY_PACKET := RawPacket(QUERY_IP + QUERY_UDP + QUERY, 47, false, Some(QUERY_META))

  lemma {:induction false} Behind(h: seq<byte>, tail: seq<byte>)
    ensures (h + tail)[|h|..] == tail && forall i :: 0 <= i < |h| ==> (h + tail)[i] == h[i]
  {}

  lemma {:induction false} QuerySegmentIsParsed()
    ensures ParseSegment(QUERY_UDP + QUERY, PROTO_UDP, PROTO_ICMP)
         == Transport(Some(40000), Some(53), None, None, None, 8)
  {
    Behind(QUERY_UDP, QUERY);
  }

  /** Behind its header of 20 bytes. */
  lemma {:induction false} QueryIpIsParsed(ip: seq<byte>, rest: seq<byte>)
    requires ip == QUERY_IP + rest && rest == QUERY_UDP + QUERY
    ensures ParseIpv4(ip, 0, None, None) == Some(QUERY_META)
  {
    Behind(QUERY_IP, rest);
    QuerySegmentIsParsed();
    assert |ip| == 47 && ip[0] == 0x45 && 0x45 % 16 * 4 == 20;
    assert ip[20..] == rest;
    assert ip[6] == 0 && ip[7] == 0 && ip[8] == 64 && ip[9] == 17;
    assert ip[12] == 10 && ip[13] == 0 && ip[14] == 0 && ip[15] == 1;
    assert ip[16] == 10 && ip[17] == 0 && ip[18] == 0 && ip[19] == 2;
  }

  /** That is what the capture makes of the bytes. */
  lemma {:induction false} QueryIsParsed()
    ensures ParseTransport(QUERY_PACKET.data, RawIp) == Some(QUERY_META)
  {
    var d, rest := QUERY_PACKET.data, QUERY_UDP + QUERY;
    assert d == QUERY_IP + rest;
    QueryIpIsParsed(d, rest);
    assert d[0..] == d && d[0] / 16 == 4;
  }

  /** An over-rate query for a listed domain: the rate limiter, the domain blacklist and nobody else. */
  const OVER_RATE_FOR_LISTED := Answers(
    None, None, Some(Signal(RatePackets, SCORE_RATE_EXCEEDED)), None, [], [],
    Some(Signal(BlacklistedDomain, SCORE_BLACKLIST_DOMAIN)))

  lemma {:induction false} QueryIsRead(lib: Library)
    ensures QueryName(lib, QUERY_PACKET, QUERY_META) == Some(lib.decode([97]))
  {
    var pkt := QUERY_PACKET;
    var p := Payload(pkt, QUERY_META);
    assert p == QUERY;
    assert Labels(p, 14) == Some([]);
    assert p[13..14] == [97];
    assert Labels(p, 12) == Some([[97]] + []);
    assert Decoded(lib, [[97]]) == [lib.decode([97])];
  }

  /** What the blacklist must hold for that query to be listed. */
  function QueryBlocked(lib: Library): set<Text> {
    {lib.lower(TrimDots(lib.decode([97])))}
  }

  lemma {:induction false} QueryIsListed(lib: Library)
    ensures Plausible(OVER_RATE_FOR_LISTED)
    ensures Consults(lib, QueryBlocked(lib), QUERY_PACKET, QUERY_META, OVER_RATE_FOR_LISTED)
  {
    QueryIsRead(lib);
  }

  /** With no listed address, a rate signal before a listed domain. */
  lemma {:induction false} RateHidesDomain(lib: Library, pkt: RawPacket, tm: TransportMeta, a: Answers, r: Reads)
    requires Plausible(a) && a.srcListed.None? && a.dstListed.None? && a.rate.Some? && a.domainListed.Some?
    ensures var stages := Stages(lib, pkt, tm, a, r);
            Conclude(stages).flag == FLAG_RATE_EXCEEDED && !FlagNamesLoudest(stages)
  {
    FlagNamesLoudestIff(lib, pkt, tm, a, r);
    StagesAreLaid(lib, pkt, tm, a, r);
    FlagOfParts(PartsOf(lib, pkt, tm, a, r));
  }

  /** Whatever the library does, that packet is reported as over-rate although its domain scores twice as much. */
  lemma {:induction false} LouderDomainIsNotNamed(lib: Library, r: Reads)
    ensures QUERY_PACKET.transport == ParseTransport(QUERY_PACKET.data, RawIp)
    ensures Plausible(OVER_RATE_FOR_LISTED)
    ensures Consults(lib, QueryBlocked(lib), QUERY_PACKET, QUERY_META, OVER_RATE_FOR_LISTED)
    ensures var stages := Stages(lib, QUERY_PACKET, QUERY_META, OVER_RATE_FOR_LISTED, r);
            Conclude(stages).flag == FLAG_RATE_EXCEEDED && !FlagNamesLoudest(stages)
  {
    QueryIsParsed();
    QueryIsListed(lib);
    RateHidesDomain(lib, QUERY_PACKET, QUERY_META, OVER_RATE_FOR_LISTED, r);
  }
}
