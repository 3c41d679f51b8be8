/** The engine: the detectors and the baseline behind one `Analyze`, and the sweeper beside it. */
module Engine {
  import opened Types
  import opened Score
  import opened Capture
  import opened Dns
  import opened Analysis
  import opened EngineState
  import opened Vigilance
  import B = Baseline
  import BL = Blacklist
  import RL = RateLimit
  import PS = PortScan
  import SF = SynFlood

  /** The signals raised so far, and the reason reported so far. */
  datatype Tally = Tally(signals: seq<Signal>, flag: int)

  /** What a series of stages adds up to, one after the other. */
  function Tallied(stages: seq<Stage>): Tally {
    if stages == [] then Tally([], 0)
    else
      var t, last := Tallied(Init(stages)), Last(stages);
      Tally(t.signals + last.signals, if t.flag == 0 && last.Raised() then last.reason else t.flag)
  }

  lemma {:induction false} TallyConcludes(stages: seq<Stage>)
    ensures Tallied(stages) == Tally(Flatten(stages), FlagOf(stages))
  {
    if stages != [] {
      TallyConcludes(Init(stages));
    }
  }

  /** Adds the signals of one more detector: they are appended, and the reason is set if none was set before. */
  method Push(ghost stages: seq<Stage>, t: Tally, reason: int, more: seq<Signal>) returns (r: Tally)
    requires t == Tallied(stages)
    ensures r == Tallied(stages + [Stage(reason, more)])
  {
    var flag, signals := t.flag, t.signals;
    for i := 0 to |more|
      invariant signals == t.signals + more[..i]
      invariant flag == if t.flag == 0 && i > 0 then reason else t.flag
    {
      if flag == 0 {
        flag := reason;
      }
      signals := signals + [more[i]];
    }
    assert more[..|more|] == more;
    assert Init(stages + [Stage(reason, more)]) == stages;
    return Tally(signals, flag);
  }

  /** Three detectors in a row. */
  method PushThree(ghost stages: seq<Stage>, t: Tally, x: Stage, y: Stage, z: Stage) returns (r: Tally)
    requires t == Tallied(stages)
    ensures r == Tallied(stages + [x, y, z])
  {
    r := Push(stages, t, x.reason, x.signals);
    r := Push(stages + [x], r, y.reason, y.signals);
    r := Push(stages + [x] + [y], r, z.reason, z.signals);
    assert stages + [x] + [y] + [z] == stages + [x, y, z];
  }

  /** The query name of a packet, if it has one. */
  function QueryNames(lib: Library, pkt: RawPacket): set<Text> {
    if pkt.transport.Some? then Insert({}, QueryName(lib, pkt, pkt.transport.value)) else {}
  }

  lemma {:induction false} ArrivalTeachesQuietly(w: Setting, s: State, pkt: RawPacket, now: real)
    requires forall p :: AreSignatures(w.scanAll(p))
    ensures s.known.phase.Refinement? ==>
              OnlyQuietlyLearned(EngineNorms(w.lib, w.domains), QueryNames(w.lib, pkt), s.known,
                                 After(w, s, Arrival(pkt, now)).known)
  {
    if pkt.transport.Some? && s.known.phase.Refinement? {
      var tm := pkt.transport.value;
      AnswersArePlausible(w, s.logs, pkt, tm, now);
      AnalysisLearnsQuietly(w.lib, w.domains, s.known, pkt, tm, AnswersTo(w, s.logs, pkt, tm, now),
                            w.countryCode(tm.srcIp));
    }
  }

  class IdsEngine {
    const portScan: PS.PortScanDetector
    const synFlood: SF.SynFloodDetector
    const rateLimiter: RL.RateLimiter
    const blacklist: BL.Blacklist
    const baseline: B.Baseline
    /** The signature scanner and the country lookup are left arbitrary; the lookup may be replaced. */
    const scanAll: seq<byte> -> seq<Signal>
    var countryCode: IpAddr -> Option<Country>

    /** The detectors start empty; the baseline, the blacklist and the country lookup come loaded. */
    constructor (baseline: B.Baseline, blacklist: BL.Blacklist, hash: IpAddr -> u16,
                 scanAll: seq<byte> -> seq<Signal>, countryCode: IpAddr -> Option<Country>, now: real)
      requires blacklist.Valid() && baseline.Valid() && blacklist.lib == baseline.lib
      requires forall p :: AreSignatures(scanAll(p))
      ensures Valid(now)
      ensures this.baseline == baseline && this.blacklist == blacklist
      ensures this.scanAll == scanAll && this.countryCode == countryCode
      ensures portScan.log == [] && synFlood.log == [] && rateLimiter.log == []
      ensures fresh(portScan) && fresh(synFlood) && fresh(rateLimiter)
    {
      portScan := new PS.PortScanDetector(hash);
      synFlood := new SF.SynFloodDetector();
      rateLimiter := new RL.RateLimiter();
      this.baseline, this.blacklist := baseline, blacklist;
      this.scanAll, this.countryCode := scanAll, countryCode;
    }

    ghost predicate Valid(now: real)
      reads this, portScan, synFlood, rateLimiter, blacklist, baseline
    {
      && portScan.Valid() && PS.NotBefore(portScan.log, now)
      && synFlood.Valid() && SF.NotBefore(synFlood.log, now)
      && rateLimiter.Valid() && RL.NotBefore(rateLimiter.log, now)
      && blacklist.Valid() && baseline.Valid() && blacklist.lib == baseline.lib
      && forall p :: AreSignatures(scanAll(p))
    }

    ghost function Settings(): Setting
      reads this, blacklist
    {
      Setting(baseline.lib, rateLimiter.limits, portScan.config, synFlood.config,
              blacklist.exact, blacklist.prefixes, blacklist.domains, scanAll, countryCode, baseline.learningStarted)
    }

    ghost function Seen(): Logs
      reads portScan, synFlood, rateLimiter
    {
      Logs(rateLimiter.log, portScan.log, synFlood.log)
    }

    ghost function Current(): State
      reads portScan, synFlood, rateLimiter, baseline
    {
      State(Seen(), baseline.Known())
    }

    function PayloadAnswer(pkt: RawPacket, tm: TransportMeta): seq<Signal> {
      if HasPayload(pkt, tm) then scanAll(Payload(pkt, tm)) else []
    }

    /** Both addresses against the blacklist. */
    method AskBlacklist(tm: TransportMeta, ghost a: Answers) returns (t: Tally)
      requires blacklist.Valid()
      requires a.srcListed == BL.IpAnswer(blacklist.exact, blacklist.prefixes, tm.srcIp)
      requires a.dstListed == BL.IpAnswer(blacklist.exact, blacklist.prefixes, tm.dstIp)
      ensures t == Tallied(ListStages(a))
    {
      var src := blacklist.CheckIp(tm.srcIp);
      t := Push([], Tally([], 0), FLAG_BLACKLISTED, ToSeq(src));
      ghost var one := [Stage(FLAG_BLACKLISTED, ToSeq(src))];
      assert [] + one == one;
      var dst := blacklist.CheckIp(tm.dstIp);
      t := Push(one, t, FLAG_BLACKLISTED, ToSeq(dst));
      assert ListStages(a) == one + [Stage(FLAG_BLACKLISTED, ToSeq(dst))];
    }

    method AskRate(pkt: RawPacket, tm: TransportMeta, now: real) returns (r: Option<Signal>)
      requires Valid(now)
      modifies rateLimiter
      ensures Valid(now)
      ensures r == RateOf(rateLimiter.limits, old(rateLimiter.log), RatePacket(pkt, tm, now))
      ensures rateLimiter.log == old(rateLimiter.log) + [RL.Seen(RatePacket(pkt, tm, now))]
    {
      r := rateLimiter.Inspect(tm.srcIp, pkt.origLen, IsSyn(tm.tcpFlags), now);
    }

    method AskScan(tm: TransportMeta, now: real) returns (r: Option<Signal>)
      requires Valid(now)
      modifies portScan
      ensures Valid(now)
      ensures r == ScanOf(portScan.config, old(portScan.log), tm, now)
      ensures portScan.log == ScanLogged(old(portScan.log), tm, now)
    {
      r := None;
      if tm.dstPort.Some? {
        r := portScan.Inspect(tm.srcIp, tm.dstPort.value, now);
      }
    }

    method AskSyn(tm: TransportMeta, now: real) returns (r: seq<Signal>)
      requires Valid(now)
      modifies synFlood
      ensures Valid(now)
      ensures r == SynOf(synFlood.config, old(synFlood.log), tm, now)
      ensures synFlood.log == SynLogged(old(synFlood.log), tm, now)
    {
      r := [];
      if tm.tcpFlags.Some? && tm.srcPort.Some? && tm.dstPort.Some? {
        r := synFlood.Inspect(tm.srcIp, tm.dstIp, tm.srcPort.value, tm.dstPort.value, tm.tcpFlags.value, now);
      }
    }

    /** The detectors that keep state per source; each is shown the packet once. */
    method AskCounters(pkt: RawPacket, tm: TransportMeta, now: real,
                       ghost a: Answers, ghost stages: seq<Stage>, t0: Tally)
      returns (t: Tally)
      requires Valid(now) && t0 == Tallied(stages)
      requires a.rate == RateOf(rateLimiter.limits, rateLimiter.log, RatePacket(pkt, tm, now))
      requires a.scan == ScanOf(portScan.config, portScan.log, tm, now)
      requires a.syn == SynOf(synFlood.config, synFlood.log, tm, now)
      modifies portScan, synFlood, rateLimiter
      ensures Valid(now)
      ensures t == Tallied(stages + CounterStages(a))
      ensures Seen() == Logged(old(Seen()), pkt, tm, now)
    {
      var rate := AskRate(pkt, tm, now);
      var scan := AskScan(tm, now);
      var syn := AskSyn(tm, now);
      t := PushThree(stages, t0, Stage(FLAG_RATE_EXCEEDED, ToSeq(rate)), Stage(FLAG_PORT_SCAN, ToSeq(scan)),
                     Stage(FLAG_SYN_FLOOD, syn));
    }

    /** The headers alone: odd ICMP types, fragments and truncated captures; none of them sets a reason. */
    method AskHeaders(pkt: RawPacket, tm: TransportMeta, ghost stages: seq<Stage>, t0: Tally) returns (t: Tally)
      requires t0 == Tallied(stages)
      ensures t == Tallied(stages + HeaderStages(pkt, tm))
    {
      t := PushThree(stages, t0,
                     Stage(0, When(UnusualIcmp(tm), Signal(IcmpUnusualType, 25))),
                     Stage(0, When(Fragmented(tm), Signal(IpFragmentation, 20))),
                     Stage(0, When(pkt.truncated, Signal(PacketTruncated, 10))));
    }

    /** Whether the baseline, if it is past learning, has yet to see the country. */
    method IsNewCountry(country: Option<Country>) returns (r: bool)
      ensures r == (country.Some? && baseline.phase.Refinement? && country.value !in baseline.countries)
    {
      r := false;
      if country.Some? && baseline.phase == Refinement {
        var known := baseline.IsKnownCountry(country.value);
        r := !known;
      }
    }

    /** Whether the baseline, if it is past learning, has yet to see the port. */
    method IsNewPort(port: Option<u16>) returns (r: bool)
      ensures r == (port.Some? && baseline.phase.Refinement? && port.value !in baseline.commonPorts)
    {
      r := false;
      if port.Some? && baseline.phase == Refinement {
        var known := baseline.IsKnownPort(port.value);
        r := !known;
      }
    }

    method AskDomain(name: Option<Text>) returns (r: Option<Signal>)
      requires blacklist.Valid()
      ensures r == DomainOf(blacklist.lib, blacklist.domains, name)
    {
      r := None;
      if name.Some? {
        r := blacklist.CheckDomain(name.value);
      }
    }

    method IsKnownName(name: Option<Text>) returns (r: bool)
      requires baseline.Valid()
      ensures r == (name.Some? && baseline.lib.lower(name.value) in baseline.dnsDomains)
    {
      r := false;
      if name.Some? {
        r := baseline.IsKnownDns(name.value);
      }
    }

    /** The name heuristics, for a name the baseline does not know. */
    method AskName(name: Option<Text>, known: bool) returns (s: seq<Signal>)
      ensures forall r: Reads :: r.knownName == known ==> s == NameStage(baseline.lib, name, r)
    {
      s := [];
      if name.Some? && !known {
        s := InspectName(baseline.lib, name.value);
      }
    }

    /** The payload heuristics, which inspect the name a second time, known or not. */
    method AskPayload(pkt: RawPacket, tm: TransportMeta, name: Option<Text>) returns (s: seq<Signal>)
      requires name == QueryName(baseline.lib, pkt, tm)
      ensures s == PayloadStage(baseline.lib, pkt, tm)
    {
      s := [];
      if name.Some? {
        s := InspectPayload(baseline.lib, Payload(pkt, tm));
      }
    }

    method AskNames(pkt: RawPacket, tm: TransportMeta, name: Option<Text>,
                    ghost a: Answers, ghost r: Reads, ghost stages: seq<Stage>, t0: Tally)
      returns (t: Tally)
      requires blacklist.Valid() && baseline.Valid()
      requires t0 == Tallied(stages) && name == QueryName(baseline.lib, pkt, tm)
      requires a.domainListed == DomainOf(blacklist.lib, blacklist.domains, name)
      requires r.knownName == (name.Some? && baseline.lib.lower(name.value) in baseline.dnsDomains)
      ensures t == Tallied(stages + NameStages(baseline.lib, pkt, tm, a, r))
    {
      var listed := AskDomain(name);
      var known := IsKnownName(name);
      var objections := AskName(name, known);
      var tunnel := AskPayload(pkt, tm, name);
      t := PushThree(stages, t0, Stage(FLAG_BLACKLISTED, ToSeq(listed)), Stage(FLAG_DNS_ANOMALY, objections),
                     Stage(FLAG_DNS_ANOMALY, tunnel));
    }

    /** The first part of an analysis: everything asked before the baseline. */
    method InspectFront(pkt: RawPacket, tm: TransportMeta, now: real, ghost a: Answers) returns (t: Tally)
      requires Valid(now) && a == AnswersTo(Settings(), Seen(), pkt, tm, now)
      modifies portScan, synFlood, rateLimiter
      ensures Valid(now)
      ensures t == Tallied(ListStages(a) + CounterStages(a) + HeaderStages(pkt, tm))
      ensures Seen() == Logged(old(Seen()), pkt, tm, now) && baseline.Known() == old(baseline.Known())
      ensures a.payload == PayloadAnswer(pkt, tm)
      ensures a.domainListed == DomainOf(blacklist.lib, blacklist.domains, QueryName(baseline.lib, pkt, tm))
    {
      t := AskBlacklist(tm, a);
      t := AskCounters(pkt, tm, now, a, ListStages(a), t);
      t := AskHeaders(pkt, tm, ListStages(a) + CounterStages(a), t);
    }

    /** The rest of it, which reads the baseline. */
    method InspectBack(pkt: RawPacket, tm: TransportMeta, country: Option<Country>, name: Option<Text>,
                       ghost a: Answers, ghost r: Reads, ghost front: seq<Stage>, t0: Tally)
      returns (t: Tally)
      requires blacklist.Valid() && baseline.Valid()
      requires t0 == Tallied(front) && name == QueryName(baseline.lib, pkt, tm)
      requires a.payload == PayloadAnswer(pkt, tm) && a.domainListed == DomainOf(blacklist.lib, blacklist.domains, name)
      requires r == ReadsOf(baseline.lib.lower, baseline.Known(), tm, country, name)
      ensures t == Tallied(front
        + [Stage(FLAG_GEO_ANOMALY, When(r.newCountry, Signal(GeoNewCountry, SCORE_GEO_ANOMALY)))]
        + [Stage(FLAG_PAYLOAD_SIG, a.payload)]
        + NameStages(baseline.lib, pkt, tm, a, r)
        + [Stage(0, PortStage(tm, r))]
        + [Stage(0, When(ReservedVlan(tm), Signal(VlanReservedId, 20)))])
    {
      var newCountry := IsNewCountry(country);
      var geo := When(newCountry, Signal(GeoNewCountry, SCORE_GEO_ANOMALY));
      t := Push(front, t0, FLAG_GEO_ANOMALY, geo);
      ghost var s := front + [Stage(FLAG_GEO_ANOMALY, geo)];
      t := Push(s, t, FLAG_PAYLOAD_SIG, PayloadAnswer(pkt, tm));
      s := s + [Stage(FLAG_PAYLOAD_SIG, a.payload)];
      t := AskNames(pkt, tm, name, a, r, s, t);
      s := s + NameStages(baseline.lib, pkt, tm, a, r);
      var newPort := IsNewPort(tm.dstPort);
      t := Push(s, t, 0, PortStage(tm, Reads(false, false, newPort)));
      s := s + [Stage(0, PortStage(tm, r))];
      t := Push(s, t, 0, When(ReservedVlan(tm), Signal(VlanReservedId, 20)));
    }

    /** The last step of an analysis: the baseline learns from any packet while learning, and later from clean ones. */
    method Update(tm: TransportMeta, country: Option<Country>, name: Option<Text>, result: IdsResult, now: real)
      requires Valid(now)
      modifies baseline
      ensures Valid(now)
      ensures Current() ==
              if old(baseline.phase).Learning? || result.IsClean()
              then old(Current()).(known := Learned(baseline.lib.lower, old(baseline.Known()), tm, country, name))
              else old(Current())
    {
      var learning := baseline.IsLearning();
      if learning || result.total < THRESHOLD_INFO {
        baseline.Observe(tm.dstPort, tm.dstIp, tm.protocol, country, name);
      }
    }

    /** The rest of it, and the result of the whole. */
    method InspectRest(pkt: RawPacket, tm: TransportMeta, country: Option<Country>, name: Option<Text>, now: real,
                       ghost a: Answers, ghost r: Reads, t0: Tally)
      returns (result: IdsResult)
      requires Valid(now)
      requires t0 == Tallied(ListStages(a) + CounterStages(a) + HeaderStages(pkt, tm))
      requires name == QueryName(baseline.lib, pkt, tm)
      requires a.payload == PayloadAnswer(pkt, tm) && a.domainListed == DomainOf(blacklist.lib, blacklist.domains, name)
      requires r == ReadsOf(baseline.lib.lower, baseline.Known(), tm, country, name)
      ensures Valid(now) && Current() == old(Current())
      ensures result == Conclude(Stages(baseline.lib, pkt, tm, a, r))
    {
      var t := InspectBack(pkt, tm, country, name, a, r, ListStages(a) + CounterStages(a) + HeaderStages(pkt, tm), t0);
      TallyConcludes(Stages(baseline.lib, pkt, tm, a, r));
      result := FromSignals(t.signals, t.flag);
    }

    /** From the detectors' answers to the end: the result, and what the baseline makes of it. */
    method Finish(pkt: RawPacket, tm: TransportMeta, now: real, ghost a: Answers, t: Tally) returns (result: IdsResult)
      requires Valid(now) && t == Tallied(ListStages(a) + CounterStages(a) + HeaderStages(pkt, tm))
      requires a.payload == PayloadAnswer(pkt, tm)
      requires a.domainListed == DomainOf(blacklist.lib, blacklist.domains, QueryName(baseline.lib, pkt, tm))
      modifies baseline
      ensures Valid(now) && Seen() == old(Seen())
      ensures (result, baseline.Known())
           == Analyzed(baseline.lib, old(baseline.Known()), pkt, tm, a, countryCode(tm.srcIp))
    {
      var country := countryCode(tm.srcIp);
      var name := QueryName(baseline.lib, pkt, tm);
      ghost var r := ReadsOf(baseline.lib.lower, baseline.Known(), tm, country, name);
      result := InspectRest(pkt, tm, country, name, now, a, r, t);
      Update(tm, country, name, result, now);
    }

    method AnalyzeTransport(pkt: RawPacket, tm: TransportMeta, now: real, ghost a: Answers) returns (result: IdsResult)
      requires Valid(now) && a == AnswersTo(Settings(), Seen(), pkt, tm, now)
      modifies portScan, synFlood, rateLimiter, baseline
      ensures Valid(now)
      ensures (result, baseline.Known())
           == Analyzed(baseline.lib, old(baseline.Known()), pkt, tm, a, countryCode(tm.srcIp))
      ensures Seen() == Logged(old(Seen()), pkt, tm, now)
    {
      var t := InspectFront(pkt, tm, now, a);
      result := Finish(pkt, tm, now, a, t);
    }

    /**
     One packet: the result, and the state of the engine after it. In Refinement no country and no
     well-known port is learned, and no name but the packet's own, if that is unlisted and unobjectionable.
     */
    method Analyze(pkt: RawPacket, now: real) returns (result: IdsResult)
      requires Valid(now)
      modifies portScan, synFlood, rateLimiter, baseline
      ensures Valid(now)
      ensures result == ResultAt(Settings(), old(Current()), pkt, now)
      ensures Arranges(result, RaisedAt(Settings(), old(Current()), pkt, now))
      ensures Current() == After(Settings(), old(Current()), Arrival(pkt, now))
      ensures old(baseline.phase).Refinement? ==>
                OnlyQuietlyLearned(EngineNorms(baseline.lib, blacklist.domains), QueryNames(baseline.lib, pkt),
                                   old(baseline.Known()), baseline.Known())
    {
      ResultIsArranged(Settings(), Current(), pkt, now);
      ArrivalTeachesQuietly(Settings(), Current(), pkt, now);
      if pkt.transport == None {
        return FromSignals([], 0);
      }
      var tm := pkt.transport.value;
      result := AnalyzeTransport(pkt, tm, now, AnswersTo(Settings(), Seen(), pkt, tm, now));
    }

    method SweepDetectors(now: real)
      requires Valid(now)
      modifies portScan, synFlood, rateLimiter
      ensures Valid(now)
      ensures Seen() == Ticked(old(Seen()), now)
    {
      portScan.Sweep(now);
      synFlood.Sweep(now);
      rateLimiter.Sweep(now);
    }

    /**
     One tick of the background sweeper. Nothing a packet arriving later is told depends on it, but for the
     half-open count: the rate and the scan answer stay, and so do the flood, RST and Xmas signals.
     */
    method SweeperTick(now: real, unixTime: nat)
      requires Valid(now)
      modifies portScan, synFlood, rateLimiter, baseline
      ensures Valid(now)
      ensures Current() == After(Settings(), old(Current()), Tick(now))
      ensures AnswersKept(Settings(), old(Seen()), Seen(), now)
    {
      TickKeepsAnswers(Settings(), Seen(), now);
      SweepDetectors(now);
      baseline.TickPhase(now, unixTime);
    }
  }
}
