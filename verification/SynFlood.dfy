/** SYN-flood ratio, half-open table, RST injection and Xmas scans. */
module SynFlood {
  import opened Types
  import opened Score
  import TW = TumblingWindow

  /** Exactly FIN, PSH and URG. */
  const TCP_XMAS := TcpFlags(true, false, false, true, false, true, false, false)
  const TCP_SYN := TcpFlags(false, true, false, false, false, false, false, false)
  const TCP_RST := TcpFlags(false, false, true, false, false, false, false, false)

  datatype Config = Config(
    minSyns: nat, window: real, counterTtl: real, halfOpenThreshold: nat, halfOpenTtl: real)
  {
    predicate Sane() {
      0.0 < window <= counterTtl
    }
  }

  const SYN_ACK_RATIO := 5

  const DEFAULTS := Config(50, 10.0, 100.0, 200, 30.0)

  datatype FlowKey = FlowKey(src: IpAddr, dst: IpAddr, srcPort: u16, dstPort: u16)

  datatype Segment = Segment(src: IpAddr, dst: IpAddr, srcPort: u16, dstPort: u16, flags: TcpFlags, now: real) {
    predicate IsSyn() {
      flags.syn && !flags.ack
    }

    predicate IsSynAck() {
      flags.syn && flags.ack
    }

    predicate IsRst() {
      flags.rst
    }

    predicate IsAck() {
      !IsSyn() && flags.ack
    }

    function Key(): FlowKey {
      FlowKey(src, dst, srcPort, dstPort)
    }

    function RevKey(): FlowKey {
      FlowKey(dst, src, dstPort, srcPort)
    }

    function Tick(): TW.Tick {
      TW.Tick(now, if IsSyn() then 1 else 0, if IsAck() || IsSynAck() then 1 else 0)
    }
  }

  datatype Counters = Counters(syns: nat, acks: nat, lastReset: real) {
    function Window(): TW.Window {
      TW.Window(lastReset, syns, acks)
    }
  }

  datatype Event = Seen(seg: Segment) | Sweep(at: real) {
    function Time(): real {
      if Seen? then seg.now else at
    }
  }

  function FetchCounters(counters: map<IpAddr, Counters>, src: IpAddr, now: real): Counters {
    if src in counters then counters[src] else Counters(0, 0, now)
  }

  /** At least `minSyns` SYNs and a SYN/ACK ratio of at least five, compared by cross-multiplication. */
  predicate Floods(c: Config, w: TW.Window) {
    w.first >= c.minSyns && w.first >= SYN_ACK_RATIO * w.second
  }

  function TrackHalfOpen(halfOpen: map<FlowKey, real>, g: Segment): map<FlowKey, real> {
    if g.IsSyn() then halfOpen[g.Key() := g.now]
    else if g.IsSynAck() || g.IsRst() || g.IsAck() then halfOpen - {g.RevKey()} - {g.Key()}
    else halfOpen
  }

  predicate IsSynSignal(s: Signal) {
    || s == Signal(SignalName.SynFlood, SCORE_SYN_FLOOD) || s == Signal(HalfOpenHigh, SCORE_HALF_OPEN_HIGH)
    || s == Signal(RstInjection, 25) || s == Signal(XmasScan, SCORE_PORT_SCAN_XMAS)
  }

  function Signals(flood: bool, high: bool, rst: bool, xmas: bool): (r: seq<Signal>)
    ensures Signal(SignalName.SynFlood, SCORE_SYN_FLOOD) in r <==> flood
    ensures Signal(HalfOpenHigh, SCORE_HALF_OPEN_HIGH) in r <==> high
    ensures Signal(RstInjection, 25) in r <==> rst
    ensures Signal(XmasScan, SCORE_PORT_SCAN_XMAS) in r <==> xmas
    ensures forall i :: 0 <= i < |r| ==> IsSynSignal(r[i])
  {
    var s := if flood then [Signal(SignalName.SynFlood, SCORE_SYN_FLOOD)] else [];
    var s := if high then s + [Signal(HalfOpenHigh, SCORE_HALF_OPEN_HIGH)] else s;
    var s := if rst then s + [Signal(RstInjection, 25)] else s;
    if xmas then s + [Signal(XmasScan, SCORE_PORT_SCAN_XMAS)] else s
  }

  /** The counters of the segment's source once it has been counted. */
  function Counted(c: Config, counters: map<IpAddr, Counters>, g: Segment): TW.Window {
    TW.Advance(FetchCounters(counters, g.src, g.now).Window(), c.window, g.Tick())
  }

  /** What a segment raises, given its source's counters and the half-open table after it. */
  function Raised(c: Config, w: TW.Window, halfOpen: map<FlowKey, real>, g: Segment): (r: seq<Signal>)
    ensures forall i :: 0 <= i < |r| ==> IsSynSignal(r[i])
  {
    Signals(
      Floods(c, w),
      |halfOpen| >= c.halfOpenThreshold,
      g.IsRst() && g.Key() !in halfOpen && g.RevKey() !in halfOpen,
      g.flags == TCP_XMAS)
  }

  function CountersAfter(c: Config, counters: map<IpAddr, Counters>, e: Event): map<IpAddr, Counters> {
    match e
    case Seen(g) =>
      var w := Counted(c, counters, g);
      counters[g.src := Counters(w.first, w.second, w.start)]
    case Sweep(now) =>
      map k | k in counters && now - counters[k].lastReset < c.counterTtl :: counters[k]
  }

  function HalfOpenAfter(c: Config, halfOpen: map<FlowKey, real>, e: Event): map<FlowKey, real> {
    match e
    case Seen(g) => TrackHalfOpen(halfOpen, g)
    case Sweep(now) => map k | k in halfOpen && now - halfOpen[k] < c.halfOpenTtl :: halfOpen[k]
  }

  function CountersRun(c: Config, log: seq<Event>): map<IpAddr, Counters> {
    if log == [] then map[] else CountersAfter(c, CountersRun(c, Init(log)), Last(log))
  }

  function HalfOpenRun(c: Config, log: seq<Event>): map<FlowKey, real> {
    if log == [] then map[] else HalfOpenAfter(c, HalfOpenRun(c, Init(log)), Last(log))
  }

  /** What segment `g` raises after the run `log`. */
  function Verdict(c: Config, log: seq<Event>, g: Segment): (r: seq<Signal>)
    ensures forall i :: 0 <= i < |r| ==> IsSynSignal(r[i])
  {
    Raised(c, Counted(c, CountersRun(c, log), g), TrackHalfOpen(HalfOpenRun(c, log), g), g)
  }

  predicate NotBefore(log: seq<Event>, now: real) {
    log == [] || Last(log).Time() <= now
  }

  predicate Chronological(log: seq<Event>) {
    log == [] || (Chronological(Init(log)) && NotBefore(Init(log), Last(log).Time()))
  }

  class SynFloodDetector {
    const config: Config
    var counters: map<IpAddr, Counters>
    var halfOpen: map<FlowKey, real>
    ghost var log: seq<Event>

    ghost predicate Valid()
      reads this
    {
      && config.Sane() && Chronological(log)
      && counters == CountersRun(config, log) && halfOpen == HalfOpenRun(config, log)
    }

    constructor ()
      ensures Valid() && log == [] && config == Config(50, 10.0, 100.0, 200, 30.0)
    {
      config := DEFAULTS;
      counters, halfOpen, log := map[], map[], [];
    }

    method Inspect(src: IpAddr, dst: IpAddr, srcPort: u16, dstPort: u16, flags: TcpFlags, now: real)
      returns (signals: seq<Signal>)
      requires Valid() && NotBefore(log, now)
      modifies this
      ensures Valid() && log == old(log) + [Seen(Segment(src, dst, srcPort, dstPort, flags, now))]
      ensures signals == Verdict(config, old(log), Segment(src, dst, srcPort, dstPort, flags, now))
    {
      var g := Segment(src, dst, srcPort, dstPort, flags, now);
      var c := CountSegment(g);
      TrackFlow(g);
      signals := Raise(c, g);
      log := log + [Seen(g)];
      assert Init(log) == old(log);
    }

    method Raise(c: Counters, g: Segment) returns (signals: seq<Signal>)
      ensures signals == Raised(config, c.Window(), halfOpen, g)
    {
      signals := [];
      if c.syns >= config.minSyns && c.syns >= SYN_ACK_RATIO * c.acks {
        signals := signals + [Signal(SignalName.SynFlood, SCORE_SYN_FLOOD)];
      }
      if |halfOpen| >= config.halfOpenThreshold {
        signals := signals + [Signal(HalfOpenHigh, SCORE_HALF_OPEN_HIGH)];
      }
      if g.IsRst() {
        if g.Key() !in halfOpen && g.RevKey() !in halfOpen {
          signals := signals + [Signal(RstInjection, 25)];
        }
      }
      if g.flags == TCP_XMAS {
        signals := signals + [Signal(XmasScan, SCORE_PORT_SCAN_XMAS)];
      }
    }

    method TrackFlow(g: Segment)
      modifies `halfOpen
      ensures halfOpen == TrackHalfOpen(old(halfOpen), g)
    {
      if g.IsSyn() {
        halfOpen := halfOpen[g.Key() := g.now];
      } else if g.IsSynAck() || g.IsRst() || g.IsAck() {
        halfOpen := halfOpen - {g.RevKey()};
        halfOpen := halfOpen - {g.Key()};
      }
    }

    method CountSegment(g: Segment) returns (c: Counters)
      modifies `counters
      ensures counters == old(counters)[g.src := c]
      ensures c.Window() == Counted(config, old(counters), g)
    {
      c := FetchCounters(counters, g.src, g.now);
      if g.now - c.lastReset >= config.window {
        c := Counters(0, 0, g.now);
      }
      if g.IsSyn() {
        c := c.(syns := c.syns + 1);
      }
      if g.IsAck() || g.IsSynAck() {
        c := c.(acks := c.acks + 1);
      }
      counters := counters[g.src := c];
    }

    method Sweep(now: real)
      requires Valid() && NotBefore(log, now)
      modifies this
      ensures Valid() && log == old(log) + [Event.Sweep(now)]
      ensures forall k :: k in halfOpen <==> k in old(halfOpen) && now - old(halfOpen)[k] < config.halfOpenTtl
      ensures forall src :: src in counters <==>
                src in old(counters) && now - old(counters)[src].lastReset < config.counterTtl
    {
      halfOpen := map k | k in halfOpen && now - halfOpen[k] < config.halfOpenTtl :: halfOpen[k];
      counters := map k | k in counters && now - counters[k].lastReset < config.counterTtl :: counters[k];
      log := log + [Event.Sweep(now)];
      assert Init(log) == old(log);
    }
  }

  // --- The half-open table is its history ----------------------------------------------------------

  /** A SYN without ACK on the flow. */
  predicate Opens(e: Event, k: FlowKey) {
    && e.Seen? && e.seg.flags.syn && !e.seg.flags.ack
    && e.seg.src == k.src && e.seg.dst == k.dst && e.seg.srcPort == k.srcPort && e.seg.dstPort == k.dstPort
  }

  predicate EitherWay(g: Segment, k: FlowKey) {
    || (g.src == k.src && g.dst == k.dst && g.srcPort == k.srcPort && g.dstPort == k.dstPort)
    || (g.src == k.dst && g.dst == k.src && g.srcPort == k.dstPort && g.dstPort == k.srcPort)
  }

  /** Any segment with ACK, and a RST without SYN, completes or resets the flow in either direction. */
  predicate Settles(e: Event, k: FlowKey) {
    e.Seen? && (e.seg.flags.ack || (e.seg.flags.rst && !e.seg.flags.syn)) && EitherWay(e.seg, k)
  }

  predicate Expires(c: Config, e: Event, t: real) {
    e.Sweep? && e.at - t >= c.halfOpenTtl
  }

  /** `k` was last opened at `t`, and since then nothing settled it and no sweep came late enough to expire it. */
  ghost predicate Pending(c: Config, log: seq<Event>, k: FlowKey, t: real) {
    exists i :: 0 <= i < |log| && Opens(log[i], k) && log[i].Time() == t
                && forall j :: i < j < |log| ==>
                     !Opens(log[j], k) && !Settles(log[j], k) && !Expires(c, log[j], t)
  }

  lemma {:induction false} PendingStep(c: Config, log: seq<Event>, k: FlowKey, t: real)
    requires log != []
    ensures var e := Last(log);
            Pending(c, log, k, t) <==>
            (Opens(e, k) && e.Time() == t)
            || (Pending(c, Init(log), k, t) && !Opens(e, k) && !Settles(e, k) && !Expires(c, e, t))
  {
    var prior, e := Init(log), Last(log);
    if Opens(e, k) && e.Time() == t {
      assert Opens(log[|log| - 1], k);
      assert Pending(c, log, k, t);
    }
    if Pending(c, prior, k, t) && !Opens(e, k) && !Settles(e, k) && !Expires(c, e, t) {
      var i :| 0 <= i < |prior| && Opens(prior[i], k) && prior[i].Time() == t
               && forall j :: i < j < |prior| ==>
                    !Opens(prior[j], k) && !Settles(prior[j], k) && !Expires(c, prior[j], t);
      assert Opens(log[i], k) && log[i].Time() == t;
      assert forall j :: i < j < |log| ==>
        !Opens(log[j], k) && !Settles(log[j], k) && !Expires(c, log[j], t) by {
        forall j | i < j < |log|
          ensures !Opens(log[j], k) && !Settles(log[j], k) && !Expires(c, log[j], t)
        {
          if j < |prior| {
            assert prior[j] == log[j];
          }
        }
      }
    }
    if Pending(c, log, k, t) && !(Opens(e, k) && e.Time() == t) {
      var i :| 0 <= i < |log| && Opens(log[i], k) && log[i].Time() == t
               && forall j :: i < j < |log| ==>
                    !Opens(log[j], k) && !Settles(log[j], k) && !Expires(c, log[j], t);
      assert i < |prior| && prior[i] == log[i];
      assert e == log[|log| - 1];
      assert forall j :: i < j < |prior| ==> prior[j] == log[j];
    }
  }

  lemma {:induction false} TableStep(c: Config, m: map<FlowKey, real>, e: Event, k: FlowKey, t: real)
    ensures var m' := HalfOpenAfter(c, m, e);
            (k in m' && m'[k] == t) <==>
            (Opens(e, k) && e.Time() == t)
            || (k in m && m[k] == t && !Opens(e, k) && !Settles(e, k) && !Expires(c, e, t))
  {
    if e.Seen? {
      assert e.seg.RevKey() == k <==> e.seg.Key() == FlowKey(k.dst, k.src, k.dstPort, k.srcPort);
    }
  }

  /** After any run, the table maps `k` to `t` exactly when `k` is pending since `t`. */
  lemma {:induction false} HalfOpenIsItsHistory(c: Config, log: seq<Event>, k: FlowKey, t: real)
    ensures var m := HalfOpenRun(c, log);
            (k in m && m[k] == t) <==> Pending(c, log, k, t)
  {
    if log != [] {
      HalfOpenIsItsHistory(c, Init(log), k, t);
      PendingStep(c, log, k, t);
      TableStep(c, HalfOpenRun(c, Init(log)), Last(log), k, t);
    }
  }

  /** The flows half-open after a run, read off the run itself. */
  ghost function PendingFlows(c: Config, log: seq<Event>): set<FlowKey> {
    set k | k in FlowsSeen(log) && exists t :: Pending(c, log, k, t)
  }

  function FlowsSeen(log: seq<Event>): set<FlowKey> {
    set i | 0 <= i < |log| && log[i].Seen? ::
      FlowKey(log[i].seg.src, log[i].seg.dst, log[i].seg.srcPort, log[i].seg.dstPort)
  }

  lemma {:induction false} PendingIsSeen(c: Config, log: seq<Event>, k: FlowKey, t: real)
    requires Pending(c, log, k, t)
    ensures k in FlowsSeen(log)
  {
    var i :| 0 <= i < |log| && Opens(log[i], k) && log[i].Time() == t;
    assert log[i].Seen?;
  }

  lemma {:induction false} TableHoldsPendingFlows(c: Config, log: seq<Event>)
    ensures HalfOpenRun(c, log).Keys == PendingFlows(c, log)
  {
    var m := HalfOpenRun(c, log);
    forall k
      ensures k in m <==> k in PendingFlows(c, log)
    {
      if k in m {
        HalfOpenIsItsHistory(c, log, k, m[k]);
        PendingIsSeen(c, log, k, m[k]);
      }
      if k in PendingFlows(c, log) {
        var t :| Pending(c, log, k, t);
        HalfOpenIsItsHistory(c, log, k, t);
      }
    }
  }

  /** The half-open signal is raised exactly when, this segment counted, the threshold of flows are half-open. */
  lemma {:induction false} HalfOpenSignalIff(c: Config, log: seq<Event>, g: Segment)
    ensures Signal(HalfOpenHigh, 50) in Verdict(c, log, g)
            <==> |PendingFlows(c, log + [Seen(g)])| >= c.halfOpenThreshold
  {
    assert Init(log + [Seen(g)]) == log;
    TableHoldsPendingFlows(c, log + [Seen(g)]);
    assert |HalfOpenRun(c, log + [Seen(g)])| == |HalfOpenRun(c, log + [Seen(g)]).Keys|;
  }

  /** The Xmas signal is raised on FIN, PSH and URG with every other flag clear, and on nothing else. */
  lemma {:induction false} XmasSignalIff(c: Config, log: seq<Event>, g: Segment)
    ensures Signal(XmasScan, 55) in Verdict(c, log, g)
            <==> (g.flags.fin && g.flags.psh && g.flags.urg
                  && !g.flags.syn && !g.flags.rst && !g.flags.ack && !g.flags.ece && !g.flags.cwr)
  {}

  /** Flood, half-open, RST, Xmas: the place of a signal in the order they are raised. */
  function Rank(s: Signal): nat {
    if s.name.SynFlood? then 0 else if s.name.HalfOpenHigh? then 1 else if s.name.RstInjection? then 2 else 3
  }

  predicate Ascending(s: seq<Signal>) {
    forall i, j :: 0 <= i < j < |s| ==> Rank(s[i]) < Rank(s[j])
  }

  lemma {:induction false} Extends(s: seq<Signal>, x: Signal)
    requires Ascending(s) && forall i :: 0 <= i < |s| ==> Rank(s[i]) < Rank(x)
    ensures Ascending(s + [x]) && forall i :: 0 <= i < |s + [x]| ==> Rank((s + [x])[i]) < Rank(x) + 1
  {}

  lemma {:induction false} SignalsAscend(flood: bool, high: bool, rst: bool, xmas: bool)
    ensures Ascending(Signals(flood, high, rst, xmas))
  {
    var s := if flood then [Signal(SignalName.SynFlood, SCORE_SYN_FLOOD)] else [];
    Extends(s, Signal(HalfOpenHigh, SCORE_HALF_OPEN_HIGH));
    s := if high then s + [Signal(HalfOpenHigh, SCORE_HALF_OPEN_HIGH)] else s;
    Extends(s, Signal(RstInjection, 25));
    s := if rst then s + [Signal(RstInjection, 25)] else s;
    Extends(s, Signal(XmasScan, SCORE_PORT_SCAN_XMAS));
  }

  /** No segment raises the same signal twice. */
  lemma {:induction false} EachSignalOnce(c: Config, log: seq<Event>, g: Segment)
    ensures Ascending(Verdict(c, log, g))
  {
    var h := TrackHalfOpen(HalfOpenRun(c, log), g);
    SignalsAscend(
      Floods(c, Counted(c, CountersRun(c, log), g)), |h| >= c.halfOpenThreshold,
      g.IsRst() && g.Key() !in h && g.RevKey() !in h, g.flags == TCP_XMAS);
  }

  // --- RST injection -----------------------------------------------------------------------------

  /** Both directions are removed before they are looked up, so the table has no say in the signal. */
  lemma {:induction false} RstSignalIgnoresTable(c: Config, log: seq<Event>, g: Segment)
    ensures Signal(RstInjection, 25) in Verdict(c, log, g) <==> g.IsRst() && !g.IsSyn()
  {
    var halfOpen := TrackHalfOpen(HalfOpenRun(c, log), g);
    assert g.IsRst() ==> (g.Key() in halfOpen || g.RevKey() in halfOpen <==> g.IsSyn());
  }

  predicate Tracked(c: Config, log: seq<Event>, g: Segment) {
    g.Key() in HalfOpenRun(c, log) || g.RevKey() in HalfOpenRun(c, log)
  }

  /**
   The stated purpose, to fire on a RST whose connection is not tracked, is met exactly when the
   segment is no RST, or is a plain RST on an untracked connection, or carries a SYN without ACK on
   a tracked one.
   */
  lemma {:induction false} RstSignalMeetsItsPurposeIff(c: Config, log: seq<Event>, g: Segment)
    ensures (Signal(RstInjection, 25) in Verdict(c, log, g) <==> g.IsRst() && !Tracked(c, log, g))
            <==> (g.IsRst() ==> (g.IsSyn() <==> Tracked(c, log, g)))
  {
    RstSignalIgnoresTable(c, log, g);
  }

  /** A RST that answers a tracked SYN is reported all the same. */
  lemma {:induction false} RstOnTrackedConnectionFires(a: IpAddr, b: IpAddr)
    ensures var syn := Segment(a, b, 40000, 443, TCP_SYN, 0.0);
            var rst := Segment(b, a, 443, 40000, TCP_RST, 1.0);
            Tracked(DEFAULTS, [Seen(syn)], rst) && Signal(RstInjection, 25) in Verdict(DEFAULTS, [Seen(syn)], rst)
  {
    var syn := Segment(a, b, 40000, 443, TCP_SYN, 0.0);
    var rst := Segment(b, a, 443, 40000, TCP_RST, 1.0);
    HalfOpenIsItsHistory(DEFAULTS, [Seen(syn)], syn.Key(), 0.0);
    assert Opens([Seen(syn)][0], syn.Key());
    RstSignalIgnoresTable(DEFAULTS, [Seen(syn)], rst);
  }

  // --- The flood signal and sweeping --------------------------------------------------------------

  function SegmentsOf(log: seq<Event>, src: IpAddr): seq<Segment> {
    if log == [] then []
    else SegmentsOf(Init(log), src)
         + if Last(log).Seen? && Last(log).seg.src == src then [Last(log).seg] else []
  }

  function Ticks(h: seq<Segment>): (r: seq<TW.Tick>)
    ensures |r| == |h| && forall i :: 0 <= i < |h| ==> r[i] == h[i].Tick()
  {
    seq(|h|, i requires 0 <= i < |h| => h[i].Tick())
  }

  /** What the map may hold for a source: its never-evicted counters, or nothing if those have lapsed. */
  ghost predicate Agrees(c: Config, counters: map<IpAddr, Counters>, src: IpAddr, h: seq<Segment>, now: real) {
    && (src in counters ==> h != [] && counters[src].Window() == TW.Replay(c.window, Ticks(h), |h| - 1))
    && (src !in counters && h != [] ==> now - TW.Replay(c.window, Ticks(h), |h| - 1).start >= c.counterTtl)
  }

  lemma {:induction false} NextWindow(
    c: Config, counters: map<IpAddr, Counters>, h: seq<Segment>, g: Segment)
    requires c.Sane() && Agrees(c, counters, g.src, h, g.now)
    ensures Counted(c, counters, g)
         == TW.Replay(c.window, Ticks(h + [g]), |h|)
  {
    if h != [] {
      TW.ReplayPrefix(c.window, Ticks(h), Ticks(h + [g]), |h| - 1);
    }
  }

  lemma {:induction false} RunAgreesWithReplay(c: Config, log: seq<Event>, src: IpAddr, now: real)
    requires c.Sane() && Chronological(log) && NotBefore(log, now)
    ensures Agrees(c, CountersRun(c, log), src, SegmentsOf(log, src), now)
  {
    if log != [] {
      var prior, e := Init(log), Last(log);
      RunAgreesWithReplay(c, prior, src, e.Time());
      if e.Seen? && e.seg.src == src {
        NextWindow(c, CountersRun(c, prior), SegmentsOf(prior, src), e.seg);
      } else {
        assert SegmentsOf(log, src) == SegmentsOf(prior, src);
      }
    }
  }

  /**
   The flood signal is decided by the source's own segments of less than one window ending now: at
   least `minSyns` SYNs and five times as many SYNs as ACKs since the window opened.
   */
  lemma {:induction false} FloodSignalFollowsSegments(c: Config, log: seq<Event>, g: Segment)
    requires c.Sane() && Chronological(log) && NotBefore(log, g.now)
    ensures var h := SegmentsOf(log, g.src) + [g];
            var o := TW.OpenedBy(c.window, Ticks(h), |h| - 1);
            && g.now - h[o].now < c.window
            && (Signal(SignalName.SynFlood, 65) in Verdict(c, log, g)
                <==> SynsSince(h, o) >= c.minSyns && SynsSince(h, o) >= 5 * AcksSince(h, o))
  {
    var h := SegmentsOf(log, g.src) + [g];
    var o := TW.OpenedBy(c.window, Ticks(h), |h| - 1);
    SignalsByParts(c, log, g);
    TW.WindowIsRecent(c.window, Ticks(h), |h| - 1, TW.First);
    TW.WindowIsRecent(c.window, Ticks(h), |h| - 1, TW.Second);
    SumsAreCounts(h, o);
  }

  /** How many segments from number `o` on carry SYN without ACK. */
  function SynsSince(h: seq<Segment>, o: nat): nat
    requires o <= |h|
  {
    if o == |h| then 0 else SynsSince(Init(h), o) + if Last(h).flags.syn && !Last(h).flags.ack then 1 else 0
  }

  /** How many segments from number `o` on carry ACK. */
  function AcksSince(h: seq<Segment>, o: nat): nat
    requires o <= |h|
  {
    if o == |h| then 0 else AcksSince(Init(h), o) + if Last(h).flags.ack then 1 else 0
  }

  lemma {:induction false} SumsAreCounts(h: seq<Segment>, o: nat)
    requires o <= |h|
    ensures TW.Sum(Ticks(h), o, |h|, TW.First) == SynsSince(h, o)
    ensures TW.Sum(Ticks(h), o, |h|, TW.Second) == AcksSince(h, o)
  {
    if o < |h| {
      SumsAreCounts(Init(h), o);
      TW.SumPrefix(Ticks(h), Ticks(Init(h)), o, |h| - 1, TW.First);
      TW.SumPrefix(Ticks(h), Ticks(Init(h)), o, |h| - 1, TW.Second);
    }
  }

  /** A log with its sweeps struck out. */
  function Unswept(log: seq<Event>): seq<Event> {
    if log == [] then []
    else Unswept(Init(log)) + if Last(log).Seen? then [Last(log)] else []
  }

  lemma {:induction false} UnsweptKeepsSegments(log: seq<Event>, src: IpAddr)
    ensures SegmentsOf(Unswept(log), src) == SegmentsOf(log, src)
  {
    if log != [] {
      UnsweptKeepsSegments(Init(log), src);
      if Last(log).Seen? {
        assert Init(Unswept(log)) == Unswept(Init(log));
      } else {
        assert Unswept(log) == Unswept(Init(log));
      }
    }
  }

  /** Two runs that differ only in their sweeps raise the same signals, the half-open count apart. */
  lemma {:induction false} SweepingShowsOnlyInHalfOpen(c: Config, log: seq<Event>, other: seq<Event>, g: Segment)
    requires c.Sane() && Chronological(log) && Chronological(other)
    requires NotBefore(log, g.now) && NotBefore(other, g.now) && Unswept(log) == Unswept(other)
    ensures var high, high' := TableIsHigh(c, log, g), TableIsHigh(c, other, g);
            exists flood, rst, xmas ::
              && Verdict(c, log, g) == Signals(flood, high, rst, xmas)
              && Verdict(c, other, g) == Signals(flood, high', rst, xmas)
  {
    UnsweptKeepsSegments(log, g.src);
    UnsweptKeepsSegments(other, g.src);
    SignalsByParts(c, log, g);
    SignalsByParts(c, other, g);
  }

  predicate TableIsHigh(c: Config, log: seq<Event>, g: Segment) {
    |TrackHalfOpen(HalfOpenRun(c, log), g)| >= c.halfOpenThreshold
  }

  lemma {:induction false} SignalsByParts(c: Config, log: seq<Event>, g: Segment)
    requires c.Sane() && Chronological(log) && NotBefore(log, g.now)
    ensures var h := SegmentsOf(log, g.src);
            Verdict(c, log, g) ==
            Signals(
              Floods(c, TW.Replay(c.window, Ticks(h + [g]), |h|)),
              TableIsHigh(c, log, g),
              g.IsRst() && !g.IsSyn(),
              g.flags == TCP_XMAS)
  {
    RunAgreesWithReplay(c, log, g.src, g.now);
    NextWindow(c, CountersRun(c, log), SegmentsOf(log, g.src), g);
  }

  /** Sweeping only forgets: what it leaves in the half-open table is there, unchanged, without it. */
  lemma {:induction false} SweepingOnlyForgets(c: Config, log: seq<Event>)
    ensures HalfOpenRun(c, log).Items <= HalfOpenRun(c, Unswept(log)).Items
  {
    if log != [] {
      SweepingOnlyForgets(c, Init(log));
      var m, n := HalfOpenRun(c, Init(log)), HalfOpenRun(c, Unswept(Init(log)));
      assert forall k :: k in m ==> k in n && m[k] == n[k] by {
        forall k | k in m
          ensures k in n && m[k] == n[k]
        {
          assert (k, m[k]) in m.Items;
        }
      }
      if Last(log).Seen? {
        assert Init(Unswept(log)) == Unswept(Init(log));
      } else {
        assert Unswept(log) == Unswept(Init(log));
      }
    }
  }
}
