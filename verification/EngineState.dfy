/** The engine as a state: what its detectors have been shown, what the baseline knows, and how both move on. */
module EngineState {
  import opened Types
  import opened Score
  import opened Capture
  import opened Dns
  import opened Analysis
  import B = Baseline
  import BL = Blacklist
  import RL = RateLimit
  import PS = PortScan
  import SF = SynFlood

  /** What stays as it is while the engine runs. */
  datatype Setting = Setting(
    lib: Library, limits: RL.Limits, scanConfig: PS.Config, synConfig: SF.Config,
    exact: set<BL.Word>, prefixes: seq<BL.Prefix>, domains: set<Text>,
    scanAll: seq<byte> -> seq<Signal>, countryCode: IpAddr -> Option<Country>, learningStarted: real)

  /** What each detector has been shown. */
  datatype Logs = Logs(rate: seq<RL.Event>, scan: seq<PS.Event>, syn: seq<SF.Event>)

  datatype State = State(logs: Logs, known: Knowledge)

  /** A packet to analyze, or a tick of the sweeper. */
  datatype Happening = Arrival(pkt: RawPacket, now: real) | Tick(now: real)

  // --- What the detectors are shown ------------------------------------------------------------------------

  /** SYN set and ACK clear. */
  predicate IsSyn(flags: Option<TcpFlags>) {
    flags.Some? && flags.value.syn && !flags.value.ack
  }

  function RatePacket(pkt: RawPacket, tm: TransportMeta, now: real): RL.Packet {
    RL.Packet(tm.srcIp, pkt.origLen, IsSyn(tm.tcpFlags), now)
  }

  /** Only a packet with a destination port is a probe. */
  function ProbeOf(tm: TransportMeta, now: real): Option<PS.Probe> {
    if tm.dstPort.Some? then Some(PS.Probe(tm.srcIp, tm.dstPort.value, now)) else None
  }

  /** Only a packet with flags and both ports is a segment. */
  function SegmentOf(tm: TransportMeta, now: real): Option<SF.Segment> {
    if tm.tcpFlags.Some? && tm.srcPort.Some? && tm.dstPort.Some?
    then Some(SF.Segment(tm.srcIp, tm.dstIp, tm.srcPort.value, tm.dstPort.value, tm.tcpFlags.value, now)) else None
  }

  function ScanLogged(log: seq<PS.Event>, tm: TransportMeta, now: real): seq<PS.Event> {
    var p := ProbeOf(tm, now);
    if p.Some? then log + [PS.Probed(p.value)] else log
  }

  function SynLogged(log: seq<SF.Event>, tm: TransportMeta, now: real): seq<SF.Event> {
    var g := SegmentOf(tm, now);
    if g.Some? then log + [SF.Seen(g.value)] else log
  }

  function Logged(l: Logs, pkt: RawPacket, tm: TransportMeta, now: real): Logs {
    Logs(l.rate + [RL.Seen(RatePacket(pkt, tm, now))], ScanLogged(l.scan, tm, now), SynLogged(l.syn, tm, now))
  }

  function Ticked(l: Logs, now: real): Logs {
    Logs(l.rate + [RL.Event.Sweep(now)], l.scan + [PS.Event.Sweep(now)], l.syn + [SF.Event.Sweep(now)])
  }

  // --- What they answer ------------------------------------------------------------------------------------

  function RateOf(limits: RL.Limits, log: seq<RL.Event>, p: RL.Packet): Option<Signal> {
    var g := RL.PacketsOf(log, p.src);
    RL.Verdict(limits, g + [p], |g|)
  }

  function ScanOf(c: PS.Config, log: seq<PS.Event>, tm: TransportMeta, now: real): Option<Signal> {
    var p := ProbeOf(tm, now);
    if p.Some? then PS.Observe(c, PS.Run(c, PS.Unswept(log)), p.value).1 else None
  }

  function SynOf(c: SF.Config, log: seq<SF.Event>, tm: TransportMeta, now: real): seq<Signal> {
    var g := SegmentOf(tm, now);
    if g.Some? then SF.Verdict(c, log, g.value) else []
  }

  function DomainOf(lib: Library, domains: set<Text>, name: Option<Text>): Option<Signal> {
    if name.Some? && Listed(lib, domains, name.value)
    then Some(Signal(BlacklistedDomain, SCORE_BLACKLIST_DOMAIN)) else None
  }

  /** What every detector beside the baseline answers about a packet arriving now. */
  ghost function AnswersTo(w: Setting, l: Logs, pkt: RawPacket, tm: TransportMeta, now: real): Answers {
    Answers(
      BL.IpAnswer(w.exact, w.prefixes, tm.srcIp), BL.IpAnswer(w.exact, w.prefixes, tm.dstIp),
      RateOf(w.limits, l.rate, RatePacket(pkt, tm, now)), ScanOf(w.scanConfig, l.scan, tm, now),
      SynOf(w.synConfig, l.syn, tm, now),
      if HasPayload(pkt, tm) then w.scanAll(Payload(pkt, tm)) else [],
      DomainOf(w.lib, w.domains, QueryName(w.lib, pkt, tm)))
  }

  // --- Moving on ---------------------------------------------------------------------------------------------

  ghost function AnalyzedAt(w: Setting, s: State, pkt: RawPacket, tm: TransportMeta, now: real)
    : (IdsResult, Knowledge)
  {
    Analyzed(w.lib, s.known, pkt, tm, AnswersTo(w, s.logs, pkt, tm, now), w.countryCode(tm.srcIp))
  }

  /** The result for a packet; one without transport metadata is not looked at. */
  ghost function ResultAt(w: Setting, s: State, pkt: RawPacket, now: real): IdsResult {
    if pkt.transport.None? then FromSignals([], 0) else AnalyzedAt(w, s, pkt, pkt.transport.value, now).0
  }

  /** The stages of that analysis, in the order the detectors are asked. */
  ghost function StagesAt(w: Setting, s: State, pkt: RawPacket, tm: TransportMeta, now: real): (r: seq<Stage>)
    ensures |r| == 15
  {
    var country, name := w.countryCode(tm.srcIp), QueryName(w.lib, pkt, tm);
    Stages(w.lib, pkt, tm, AnswersTo(w, s.logs, pkt, tm, now), ReadsOf(w.lib.lower, s.known, tm, country, name))
  }

  /** The signals in the order they are raised. */
  ghost function RaisedAt(w: Setting, s: State, pkt: RawPacket, now: real): seq<Signal> {
    if pkt.transport.None? then [] else Flatten(StagesAt(w, s, pkt, pkt.transport.value, now))
  }

  /**
   The result lists exactly the signals raised, loudest first and equally loud ones as they were raised, and its
   total is their sum, 10 more for two or more, capped at 100.
   */
  ghost predicate Arranges(r: IdsResult, raised: seq<Signal>) {
    && Descending(r.signals) && multiset(r.signals) == multiset(raised)
    && (forall v :: Scoring(r.signals, v) == Scoring(raised, v))
    && r.total == Min(SumOf(Scores(raised)) + (if |raised| >= 2 then 10 else 0), 100)
  }

  lemma {:induction false} ResultIsArranged(w: Setting, s: State, pkt: RawPacket, now: real)
    ensures Arranges(ResultAt(w, s, pkt, now), RaisedAt(w, s, pkt, now))
  {
    ResultIsSorted(RaisedAt(w, s, pkt, now), ResultAt(w, s, pkt, now).flag);
  }

  ghost function After(w: Setting, s: State, h: Happening): State {
    match h
    case Arrival(pkt, now) =>
      if pkt.transport.None? then s
      else State(Logged(s.logs, pkt, pkt.transport.value, now), AnalyzedAt(w, s, pkt, pkt.transport.value, now).1)
    case Tick(now) =>
      State(Ticked(s.logs, now),
            if now - w.learningStarted >= B.LEARNING_DURATION then s.known.(phase := Refinement) else s.known)
  }

  // --- Every answer is of its detector's kind ----------------------------------------------------------------

  lemma {:induction false} RateAnswerKind(limits: RL.Limits, log: seq<RL.Event>, p: RL.Packet)
    ensures var r := RateOf(limits, log, p); r.Some? ==> IsRateSignal(r.value)
  {}

  lemma {:induction false} ScanAnswerKind(c: PS.Config, log: seq<PS.Event>, tm: TransportMeta, now: real)
    ensures var r := ScanOf(c, log, tm, now); r.Some? ==> IsScanSignal(r.value)
  {}

  lemma {:induction false} SynSignalKind(s: Signal)
    requires SF.IsSynSignal(s)
    ensures IsSynSignal(s)
  {}

  lemma {:induction false} SynAnswerKind(c: SF.Config, log: seq<SF.Event>, tm: TransportMeta, now: real)
    ensures var s := SynOf(c, log, tm, now); forall i :: 0 <= i < |s| ==> IsSynSignal(s[i])
  {
    var s := SynOf(c, log, tm, now);
    forall i | 0 <= i < |s|
      ensures IsSynSignal(s[i])
    {
      SynSignalKind(s[i]);
    }
  }

  lemma {:induction false} AddressAnswerKind(exact: set<BL.Word>, prefixes: seq<BL.Prefix>, ip: IpAddr)
    ensures var r := BL.IpAnswer(exact, prefixes, ip); r.Some? ==> IsAddressSignal(r.value)
  {}

  lemma {:induction false} AnswersArePlausible(w: Setting, l: Logs, pkt: RawPacket, tm: TransportMeta, now: real)
    requires forall p :: AreSignatures(w.scanAll(p))
    ensures Plausible(AnswersTo(w, l, pkt, tm, now))
    ensures Consults(w.lib, w.domains, pkt, tm, AnswersTo(w, l, pkt, tm, now))
  {
    RateAnswerKind(w.limits, l.rate, RatePacket(pkt, tm, now));
    ScanAnswerKind(w.scanConfig, l.scan, tm, now);
    SynAnswerKind(w.synConfig, l.syn, tm, now);
    AddressAnswerKind(w.exact, w.prefixes, tm.srcIp);
    AddressAnswerKind(w.exact, w.prefixes, tm.dstIp);
  }

  // --- The half-open count apart -------------------------------------------------------------------------------

  /** Signals with the half-open ones struck out. */
  function WithoutHalfOpen(s: seq<Signal>): seq<Signal> {
    if s == [] then [] else WithoutHalfOpen(Init(s)) + if Last(s).name.HalfOpenHigh? then [] else [Last(s)]
  }

  lemma {:induction false} StrikeLast(s: seq<Signal>, x: Signal)
    ensures WithoutHalfOpen(s + [x]) == WithoutHalfOpen(s) + if x.name.HalfOpenHigh? then [] else [x]
  {
    assert Init(s + [x]) == s;
  }

  lemma {:induction false} StrikeFlood(flood: bool)
    ensures var s := if flood then [Signal(SignalName.SynFlood, SCORE_SYN_FLOOD)] else [];
            WithoutHalfOpen(s) == s
  {
    var x := Signal(SignalName.SynFlood, SCORE_SYN_FLOOD);
    assert [x] == [] + [x];
    StrikeLast([], x);
  }

  lemma {:induction false} StrikeHalfOpen(flood: bool, high: bool, rst: bool, xmas: bool)
    ensures WithoutHalfOpen(SF.Signals(flood, high, rst, xmas)) == SF.Signals(flood, false, rst, xmas)
  {
    var s0 := if flood then [Signal(SignalName.SynFlood, SCORE_SYN_FLOOD)] else [];
    StrikeFlood(flood);
    StrikeLast(s0, Signal(HalfOpenHigh, SCORE_HALF_OPEN_HIGH));
    var s1 := if high then s0 + [Signal(HalfOpenHigh, SCORE_HALF_OPEN_HIGH)] else s0;
    StrikeLast(s1, Signal(RstInjection, 25));
    var s2 := if rst then s1 + [Signal(RstInjection, 25)] else s1;
    StrikeLast(s2, Signal(XmasScan, SCORE_PORT_SCAN_XMAS));
  }

  lemma {:induction false} StruckAlike(
    s: seq<Signal>, t: seq<Signal>, flood: bool, high: bool, high': bool, rst: bool, xmas: bool)
    requires s == SF.Signals(flood, high, rst, xmas) && t == SF.Signals(flood, high', rst, xmas)
    ensures WithoutHalfOpen(s) == WithoutHalfOpen(t) && (high == high' ==> s == t)
  {
    StrikeHalfOpen(flood, high, rst, xmas);
    StrikeHalfOpen(flood, high', rst, xmas);
  }

  /** Logs that differ only in their sweeps answer a segment alike, the half-open signal apart. */
  lemma {:induction false} SegmentAnswersAgree(
    c: SF.Config, log: seq<SF.Event>, other: seq<SF.Event>, g: SF.Segment)
    requires c.Sane() && SF.Chronological(log) && SF.Chronological(other)
    requires SF.NotBefore(log, g.now) && SF.NotBefore(other, g.now) && SF.Unswept(log) == SF.Unswept(other)
    ensures WithoutHalfOpen(SF.Verdict(c, log, g)) == WithoutHalfOpen(SF.Verdict(c, other, g))
    ensures SF.TableIsHigh(c, log, g) == SF.TableIsHigh(c, other, g) ==>
              SF.Verdict(c, log, g) == SF.Verdict(c, other, g)
  {
    SF.SweepingShowsOnlyInHalfOpen(c, log, other, g);
    var high, high' := SF.TableIsHigh(c, log, g), SF.TableIsHigh(c, other, g);
    var flood, rst, xmas :|
      && SF.Verdict(c, log, g) == SF.Signals(flood, high, rst, xmas)
      && SF.Verdict(c, other, g) == SF.Signals(flood, high', rst, xmas);
    StruckAlike(SF.Verdict(c, log, g), SF.Verdict(c, other, g), flood, high, high', rst, xmas);
  }

  // --- A tick ----------------------------------------------------------------------------------------------------

  lemma {:induction false} TickKeepsRateAnswers(limits: RL.Limits, log: seq<RL.Event>, now: real)
    ensures forall p: RL.Packet :: RateOf(limits, log + [RL.Event.Sweep(now)], p) == RateOf(limits, log, p)
  {
    var swept := log + [RL.Event.Sweep(now)];
    forall p: RL.Packet
      ensures RateOf(limits, swept, p) == RateOf(limits, log, p)
    {
      assert Init(swept) == log;
      assert RL.PacketsOf(swept, p.src) == RL.PacketsOf(log, p.src);
    }
  }

  lemma {:induction false} TickKeepsScanAnswers(c: PS.Config, log: seq<PS.Event>, now: real)
    ensures forall tm, later: real :: ScanOf(c, log + [PS.Event.Sweep(now)], tm, later) == ScanOf(c, log, tm, later)
  {
    var swept := log + [PS.Event.Sweep(now)];
    assert Init(swept) == log;
    assert PS.Unswept(swept) == PS.Unswept(log);
  }

  lemma {:induction false} TickKeepsSynAnswers(c: SF.Config, log: seq<SF.Event>, now: real)
    requires c.Sane() && SF.Chronological(log) && SF.NotBefore(log, now)
    ensures forall tm, later: real :: now <= later ==>
              WithoutHalfOpen(SynOf(c, log + [SF.Event.Sweep(now)], tm, later))
              == WithoutHalfOpen(SynOf(c, log, tm, later))
  {
    var swept := log + [SF.Event.Sweep(now)];
    assert Init(swept) == log;
    assert SF.Unswept(swept) == SF.Unswept(log);
    forall tm, later: real | now <= later
      ensures WithoutHalfOpen(SynOf(c, swept, tm, later)) == WithoutHalfOpen(SynOf(c, log, tm, later))
    {
      var g := SegmentOf(tm, later);
      if g.Some? {
        SegmentAnswersAgree(c, swept, log, g.value);
      }
    }
  }

  /** Nothing a packet arriving later is told depends on a tick in between, but for the half-open count. */
  ghost predicate AnswersKept(w: Setting, l: Logs, m: Logs, now: real) {
    && (forall p: RL.Packet :: RateOf(w.limits, m.rate, p) == RateOf(w.limits, l.rate, p))
    && (forall tm, later: real :: ScanOf(w.scanConfig, m.scan, tm, later) == ScanOf(w.scanConfig, l.scan, tm, later))
    && (forall tm, later: real :: now <= later ==>
          WithoutHalfOpen(SynOf(w.synConfig, m.syn, tm, later))
          == WithoutHalfOpen(SynOf(w.synConfig, l.syn, tm, later)))
  }

  lemma {:induction false} TickKeepsAnswers(w: Setting, l: Logs, now: real)
    requires w.synConfig.Sane() && SF.Chronological(l.syn) && SF.NotBefore(l.syn, now)
    ensures AnswersKept(w, l, Ticked(l, now), now)
  {
    TickKeepsRateAnswers(w.limits, l.rate, now);
    TickKeepsScanAnswers(w.scanConfig, l.scan, now);
    TickKeepsSynAnswers(w.synConfig, l.syn, now);
  }
}
