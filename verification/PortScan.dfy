/** Horizontal (one source, many ports) and vertical (one port, many sources) scan detection. */
module PortScan {
  import opened Types
  import opened Score
  import opened SlidingSet

  /** `hash` stands for the fixed 16-bit hash of an address; nothing is assumed about it. */
  datatype Config = Config(window: real, portThreshold: nat, srcThreshold: nat, hash: IpAddr -> u16)

  function Defaults(hash: IpAddr -> u16): Config {
    Config(60.0, 20, 50, hash)
  }

  datatype Probe = Probe(src: IpAddr, port: u16, now: real)

  datatype Event = Probed(probe: Probe) | Sweep(at: real) {
    function Time(): real {
      if Probed? then probe.now else at
    }
  }

  datatype State = State(portsPerSrc: map<IpAddr, seq<Entry>>, srcsPerPort: map<u16, seq<Entry>>)

  function Get<K>(m: map<K, seq<Entry>>, k: K): seq<Entry> {
    if k in m then m[k] else []
  }

  /** A horizontal alert returns before the vertical table is touched. */
  function Observe(c: Config, s: State, p: Probe): (State, Option<Signal>) {
    var ports := Insert(Get(s.portsPerSrc, p.src), c.window, p.port, p.now);
    var s1 := s.(portsPerSrc := s.portsPerSrc[p.src := ports]);
    if |ports| >= c.portThreshold then (s1, Some(Signal(PortScanHorizontal, SCORE_PORT_SCAN)))
    else
      var srcs := Insert(Get(s.srcsPerPort, p.port), c.window, c.hash(p.src), p.now);
      (s1.(srcsPerPort := s.srcsPerPort[p.port := srcs]),
       if |srcs| >= c.srcThreshold then Some(Signal(PortScanVertical, SCORE_PORT_SCAN)) else None)
  }

  function Swept<K>(m: map<K, seq<Entry>>, window: real, now: real): map<K, seq<Entry>> {
    map k | k in m && Retain(m[k], window, now) != [] :: Retain(m[k], window, now)
  }

  function Step(c: Config, s: State, e: Event): State {
    match e
    case Probed(p) => Observe(c, s, p).0
    case Sweep(now) => State(Swept(s.portsPerSrc, c.window, now), Swept(s.srcsPerPort, c.window, now))
  }

  function Run(c: Config, log: seq<Event>): State {
    if log == [] then State(map[], map[]) else Step(c, Run(c, Init(log)), Last(log))
  }

  predicate NotBefore(log: seq<Event>, now: real) {
    log == [] || Last(log).Time() <= now
  }

  predicate Chronological(log: seq<Event>) {
    log == [] || (Chronological(Init(log)) && NotBefore(Init(log), Last(log).Time()))
  }

  class PortScanDetector {
    const config: Config
    var portsPerSrc: map<IpAddr, seq<Entry>>
    var srcsPerPort: map<u16, seq<Entry>>
    ghost var log: seq<Event>

    ghost predicate Valid()
      reads this
    {
      config.window > 0.0 && Chronological(log) && State(portsPerSrc, srcsPerPort) == Run(config, log)
    }

    constructor (hash: IpAddr -> u16)
      ensures Valid() && log == [] && config == Config(60.0, 20, 50, hash)
    {
      config := Defaults(hash);
      portsPerSrc, srcsPerPort, log := map[], map[], [];
    }

    /** The answer is that of a detector that was shown the same probes and never swept. */
    method Inspect(src: IpAddr, dstPort: u16, now: real) returns (r: Option<Signal>)
      requires Valid() && NotBefore(log, now)
      modifies this
      ensures Valid() && log == old(log) + [Probed(Probe(src, dstPort, now))]
      ensures r == Observe(config, Run(config, Unswept(old(log))), Probe(src, dstPort, now)).1
    {
      ghost var p := Probe(src, dstPort, now);
      VerdictIgnoresSweeps(config, log, p);
      log := log + [Probed(p)];
      assert Init(log) == old(log);
      var ports := Insert(Get(portsPerSrc, src), config.window, dstPort, now);
      portsPerSrc := portsPerSrc[src := ports];
      if |ports| >= config.portThreshold {
        return Some(Signal(PortScanHorizontal, SCORE_PORT_SCAN));
      }
      var srcs := Insert(Get(srcsPerPort, dstPort), config.window, config.hash(src), now);
      srcsPerPort := srcsPerPort[dstPort := srcs];
      if |srcs| >= config.srcThreshold {
        return Some(Signal(PortScanVertical, SCORE_PORT_SCAN));
      }
      return None;
    }

    method Sweep(now: real)
      requires Valid() && NotBefore(log, now)
      modifies this
      ensures Valid() && log == old(log) + [Event.Sweep(now)]
      ensures Unswept(log) == Unswept(old(log))
      ensures HoldsLive(portsPerSrc, old(portsPerSrc), config.window, now)
      ensures HoldsLive(srcsPerPort, old(srcsPerPort), config.window, now)
    {
      SweptHoldsLive(portsPerSrc, config.window, now);
      SweptHoldsLive(srcsPerPort, config.window, now);
      portsPerSrc := Swept(portsPerSrc, config.window, now);
      srcsPerPort := Swept(srcsPerPort, config.window, now);
      log := log + [Event.Sweep(now)];
      assert Init(log) == old(log);
    }
  }

  // --- What a sweep leaves ------------------------------------------------------------------------

  predicate InTable<K>(m: map<K, seq<Entry>>, k: K, e: Entry) {
    k in m && e in m[k]
  }

  /** Of all that `m` held, `swept` holds exactly the entries younger than the window, and no empty list. */
  ghost predicate HoldsLive<K(!new)>(swept: map<K, seq<Entry>>, m: map<K, seq<Entry>>, window: real, now: real) {
    && (forall k, e :: InTable(swept, k, e) <==> InTable(m, k, e) && now - e.at < window)
    && forall k :: k in swept ==> swept[k] != []
  }

  lemma {:induction false} SweptHoldsLive<K(!new)>(m: map<K, seq<Entry>>, window: real, now: real)
    ensures HoldsLive(Swept(m, window, now), m, window, now)
  {
    forall k, e
      ensures InTable(Swept(m, window, now), k, e) <==> InTable(m, k, e) && now - e.at < window
    {
      if k in m {
        assert e in Retain(m[k], window, now) ==> Retain(m[k], window, now) != [];
      }
    }
  }

  // --- Sweeping cannot be observed ---------------------------------------------------------------

  /** A log with its sweeps struck out. */
  function Unswept(log: seq<Event>): seq<Event> {
    if log == [] then []
    else Unswept(Init(log)) + if Last(log).Probed? then [Last(log)] else []
  }

  /** Two tables that agree, for every key, on what is still live. */
  ghost predicate SameLive<K(!new)>(m: map<K, seq<Entry>>, n: map<K, seq<Entry>>, window: real, now: real) {
    forall k :: Retain(Get(m, k), window, now) == Retain(Get(n, k), window, now)
  }

  ghost predicate Same(c: Config, s: State, t: State, now: real) {
    && SameLive(s.portsPerSrc, t.portsPerSrc, c.window, now)
    && SameLive(s.srcsPerPort, t.srcsPerPort, c.window, now)
  }

  lemma {:induction false} SameLiveLater<K(!new)>(
    m: map<K, seq<Entry>>, n: map<K, seq<Entry>>, window: real, t: real, now: real)
    requires t <= now && SameLive(m, n, window, t)
    ensures SameLive(m, n, window, now)
  {
    forall k
      ensures Retain(Get(m, k), window, now) == Retain(Get(n, k), window, now)
    {
      RetainAbsorbs(Get(m, k), window, t, now);
      RetainAbsorbs(Get(n, k), window, t, now);
    }
  }

  lemma {:induction false} SweptIsSame<K(!new)>(m: map<K, seq<Entry>>, window: real, now: real)
    ensures SameLive(Swept(m, window, now), m, window, now)
  {
    forall k
      ensures Retain(Get(Swept(m, window, now), k), window, now) == Retain(Get(m, k), window, now)
    {
      RetainAbsorbs(Get(m, k), window, now, now);
    }
  }

  lemma {:induction false} SameLiveUpdate<K(!new)>(
    m: map<K, seq<Entry>>, n: map<K, seq<Entry>>, window: real, now: real, key: K, entries: seq<Entry>)
    requires SameLive(m, n, window, now)
    ensures SameLive(m[key := entries], n[key := entries], window, now)
  {
    var m', n' := m[key := entries], n[key := entries];
    forall k
      ensures Retain(Get(m', k), window, now) == Retain(Get(n', k), window, now)
    {
      assert Retain(Get(m, k), window, now) == Retain(Get(n, k), window, now);
    }
  }

  lemma {:induction false} ObserveSame(c: Config, s: State, t: State, p: Probe)
    requires Same(c, s, t, p.now)
    ensures Observe(c, s, p).1 == Observe(c, t, p).1
    ensures Same(c, Observe(c, s, p).0, Observe(c, t, p).0, p.now)
  {
    InsertSeesLive(Get(s.portsPerSrc, p.src), Get(t.portsPerSrc, p.src), c.window, p.port, p.now);
    InsertSeesLive(Get(s.srcsPerPort, p.port), Get(t.srcsPerPort, p.port), c.window, c.hash(p.src), p.now);
    SameLiveUpdate(s.portsPerSrc, t.portsPerSrc, c.window, p.now, p.src,
                   Insert(Get(s.portsPerSrc, p.src), c.window, p.port, p.now));
    SameLiveUpdate(s.srcsPerPort, t.srcsPerPort, c.window, p.now, p.port,
                   Insert(Get(s.srcsPerPort, p.port), c.window, c.hash(p.src), p.now));
  }

  lemma {:induction false} RunSame(c: Config, log: seq<Event>, now: real)
    requires Chronological(log) && NotBefore(log, now)
    ensures Same(c, Run(c, log), Run(c, Unswept(log)), now)
  {
    if log != [] {
      var prior, e := Init(log), Last(log);
      var s, t := Run(c, prior), Run(c, Unswept(prior));
      RunSame(c, prior, e.Time());
      match e {
        case Probed(p) =>
          ObserveSame(c, s, t, p);
          assert Init(Unswept(log)) == Unswept(prior);
        case Sweep(at) =>
          SweptIsSame(s.portsPerSrc, c.window, at);
          SweptIsSame(s.srcsPerPort, c.window, at);
          assert Unswept(log) == Unswept(prior);
      }
      SameLiveLater(Run(c, log).portsPerSrc, Run(c, Unswept(log)).portsPerSrc, c.window, e.Time(), now);
      SameLiveLater(Run(c, log).srcsPerPort, Run(c, Unswept(log)).srcsPerPort, c.window, e.Time(), now);
    }
  }

  lemma {:induction false} VerdictIgnoresSweeps(c: Config, log: seq<Event>, p: Probe)
    requires Chronological(log) && NotBefore(log, p.now)
    ensures Observe(c, Run(c, log), p).1 == Observe(c, Run(c, Unswept(log)), p).1
  {
    RunSame(c, log, p.now);
    ObserveSame(c, Run(c, log), Run(c, Unswept(log)), p);
  }

  /** Two runs that differ only in their sweeps answer the next probe alike. */
  lemma {:induction false} SweepingIsUnobservable(c: Config, log: seq<Event>, other: seq<Event>, p: Probe)
    requires Chronological(log) && Chronological(other) && NotBefore(log, p.now) && NotBefore(other, p.now)
    requires Unswept(log) == Unswept(other)
    ensures Observe(c, Run(c, log), p).1 == Observe(c, Run(c, other), p).1
  {
    VerdictIgnoresSweeps(c, log, p);
    VerdictIgnoresSweeps(c, other, p);
  }

  // --- What each alert means ---------------------------------------------------------------------

  /** The destination ports probed by one source, with their times. */
  function PortsProbed(log: seq<Event>, src: IpAddr): seq<Entry> {
    if log == [] then []
    else PortsProbed(Init(log), src)
         + if Last(log).Probed? && Last(log).probe.src == src
           then [Entry(Last(log).probe.port, Last(log).probe.now)] else []
  }

  lemma {:induction false} PortsProbedInOrder(log: seq<Event>, src: IpAddr, now: real)
    requires Chronological(log) && NotBefore(log, now)
    ensures var h := PortsProbed(log, src);
            Ordered(h) && forall i :: 0 <= i < |h| ==> h[i].at <= now
  {
    if log != [] {
      PortsProbedInOrder(Init(log), src, Last(log).Time());
    }
  }

  /** One event against the entry of a source. */
  lemma {:induction false} HorizontalStep(c: Config, prior: seq<Event>, e: Event, src: IpAddr)
    ensures var before := Get(Run(c, prior).portsPerSrc, src);
            var after := Get(Step(c, Run(c, prior), e).portsPerSrc, src);
            if e.Sweep? then after == Retain(before, c.window, e.at)
            else if e.probe.src == src then after == Insert(before, c.window, e.probe.port, e.probe.now)
            else after == before
  {}

  lemma {:induction false} LivePortsStep(c: Config, log: seq<Event>, src: IpAddr, before: seq<Entry>, h: seq<Entry>)
    requires log != [] && h == PortsProbed(Init(log), src) && before == Get(Run(c, Init(log)).portsPerSrc, src)
    requires Retain(before, c.window, Last(log).Time()) == Retain(Replay(c.window, h), c.window, Last(log).Time())
    ensures Retain(Get(Run(c, log).portsPerSrc, src), c.window, Last(log).Time())
         == Retain(Replay(c.window, PortsProbed(log, src)), c.window, Last(log).Time())
  {
    var e := Last(log);
    HorizontalStep(c, Init(log), e, src);
    if e.Probed? && e.probe.src == src {
      InsertSeesLive(before, Replay(c.window, h), c.window, e.probe.port, e.probe.now);
      assert Init(PortsProbed(log, src)) == h;
    } else {
      assert PortsProbed(log, src) == h;
      RetainAbsorbs(before, c.window, e.Time(), e.Time());
    }
  }

  /** What is live of a source's ports is what its own probes, never swept, would have left live. */
  lemma {:induction false} LivePortsFollowProbes(c: Config, log: seq<Event>, src: IpAddr, now: real)
    requires Chronological(log) && NotBefore(log, now)
    ensures Retain(Get(Run(c, log).portsPerSrc, src), c.window, now)
         == Retain(Replay(c.window, PortsProbed(log, src)), c.window, now)
  {
    if log != [] {
      var prior, e := Init(log), Last(log);
      LivePortsFollowProbes(c, prior, src, e.Time());
      LivePortsStep(c, log, src, Get(Run(c, prior).portsPerSrc, src), PortsProbed(prior, src));
      RetainAbsorbs(Get(Run(c, log).portsPerSrc, src), c.window, e.Time(), now);
      RetainAbsorbs(Replay(c.window, PortsProbed(log, src)), c.window, e.Time(), now);
    }
  }

  /**
   A horizontal alert implies that the source probed at least `portThreshold` distinct ports within
   the last window; that many ports not probed in the window before force the alert.
   */
  lemma {:induction false} HorizontalAlert(c: Config, log: seq<Event>, p: Probe)
    requires c.window > 0.0 && Chronological(log) && NotBefore(log, p.now)
    ensures var h := PortsProbed(log + [Probed(p)], p.src);
            var alert := Observe(c, Run(c, log), p).1 == Some(Signal(PortScanHorizontal, 60));
            && h != [] && Last(h) == Entry(p.port, p.now)
            && (alert ==> |Recent(c.window, h)| >= c.portThreshold)
            && (|Recent(c.window, h) - Earlier(c.window, h)| >= c.portThreshold ==> alert)
  {
    var log' := log + [Probed(p)];
    PortsAfterProbe(c, log, p);
    PortsProbedInOrder(log', p.src, p.now);
    CountIsSandwiched(c.window, PortsProbed(log', p.src));
  }

  lemma {:induction false} PortsAfterProbe(c: Config, log: seq<Event>, p: Probe)
    requires Chronological(log) && NotBefore(log, p.now)
    ensures var log' := log + [Probed(p)];
            && PortsProbed(log', p.src) == PortsProbed(log, p.src) + [Entry(p.port, p.now)]
            && Chronological(log')
            && Insert(Get(Run(c, log).portsPerSrc, p.src), c.window, p.port, p.now)
               == Replay(c.window, PortsProbed(log', p.src))
  {
    var log' := log + [Probed(p)];
    var g := PortsProbed(log, p.src);
    assert Init(log') == log;
    LivePortsFollowProbes(c, log, p.src, p.now);
    InsertSeesLive(Get(Run(c, log).portsPerSrc, p.src), Replay(c.window, g), c.window, p.port, p.now);
    assert Init(g + [Entry(p.port, p.now)]) == g;
  }

  /** The sources that probed a port after `from` and up to `to`. */
  function SourcesOf(log: seq<Event>, port: u16, from: real, to: real): set<IpAddr> {
    set e | e in log && e.Probed? && e.probe.port == port && from < e.probe.now <= to :: e.probe.src
  }

  ghost predicate GenuineSource(c: Config, log: seq<Event>, port: u16, x: Entry) {
    exists src :: Probed(Probe(src, port, x.at)) in log && c.hash(src) == x.val
  }

  /** Every entry of the vertical table is the hash of a source that really probed the port at that time. */
  lemma {:induction false} VerticalEntriesAreGenuine(c: Config, log: seq<Event>, port: u16)
    ensures Distinct(Get(Run(c, log).srcsPerPort, port))
    ensures forall x :: x in Get(Run(c, log).srcsPerPort, port) ==> GenuineSource(c, log, port, x)
  {
    if log != [] {
      var prior, e := Init(log), Last(log);
      var before := Get(Run(c, prior).srcsPerPort, port);
      VerticalEntriesAreGenuine(c, prior, port);
      if e.Probed? {
        InsertKeepsDistinct(before, c.window, c.hash(e.probe.src), e.probe.now);
      } else {
        RetainDistinct(before, c.window, e.at);
      }
      forall x | x in Get(Run(c, log).srcsPerPort, port)
        ensures GenuineSource(c, log, port, x)
      {
        if x in before {
          var src :| Probed(Probe(src, port, x.at)) in prior && c.hash(src) == x.val;
          assert Probed(Probe(src, port, x.at)) in log;
        } else {
          assert e == Probed(Probe(e.probe.src, port, x.at));
        }
      }
    }
  }

  /** A vertical alert never counts more sources than really probed the port, whatever the hash does. */
  lemma {:induction false} VerticalAlertIsSound(c: Config, log: seq<Event>, p: Probe)
    requires c.window > 0.0 && Chronological(log) && NotBefore(log, p.now)
    requires Observe(c, Run(c, log), p).1 == Some(Signal(PortScanVertical, 60))
    ensures |SourcesOf(log + [Probed(p)], p.port, p.now - c.window, p.now)| >= c.srcThreshold
  {
    var log' := log + [Probed(p)];
    assert Init(log') == log;
    var held := Get(Run(c, log').srcsPerPort, p.port);
    var sources := SourcesOf(log', p.port, p.now - c.window, p.now);
    VerticalEntriesAreGenuine(c, log', p.port);
    DistinctCount(held);
    forall v | v in Values(held)
      ensures exists src :: src in sources && c.hash(src) == v
    {
      var x :| x in held && x.val == v;
      LiveEntryHasSource(c, log', p.port, x, p.now);
    }
    ImageCard(c.hash, sources, Values(held));
  }

  /** The probe was answered with a horizontal alert, and so never reached the vertical table. */
  predicate AlertsHorizontally(c: Config, s: State, p: Probe) {
    |Insert(Get(s.portsPerSrc, p.src), c.window, p.port, p.now)| >= c.portThreshold
  }

  /** The hashes that reached the vertical entry of one port, with their times. */
  function HashesSeen(c: Config, log: seq<Event>, port: u16): seq<Entry> {
    if log == [] then []
    else
      HashesSeen(c, Init(log), port)
      + if Last(log).Probed? && Last(log).probe.port == port
           && !AlertsHorizontally(c, Run(c, Init(log)), Last(log).probe)
        then [Entry(c.hash(Last(log).probe.src), Last(log).probe.now)] else []
  }

  lemma {:induction false} HashesSeenInOrder(c: Config, log: seq<Event>, port: u16, now: real)
    requires Chronological(log) && NotBefore(log, now)
    ensures var h := HashesSeen(c, log, port);
            Ordered(h) && forall i :: 0 <= i < |h| ==> h[i].at <= now
  {
    if log != [] {
      HashesSeenInOrder(c, Init(log), port, Last(log).Time());
    }
  }

  /** One event against the vertical entry of a port. */
  lemma {:induction false} VerticalStep(c: Config, prior: seq<Event>, e: Event, port: u16)
    ensures var before := Get(Run(c, prior).srcsPerPort, port);
            var after := Get(Step(c, Run(c, prior), e).srcsPerPort, port);
            if e.Sweep? then after == Retain(before, c.window, e.at)
            else if e.probe.port == port && !AlertsHorizontally(c, Run(c, prior), e.probe) then
              after == Insert(before, c.window, c.hash(e.probe.src), e.probe.now)
            else after == before
  {}

  /** What is live of a port's hashes is what those that reached it, never swept, would have left live. */
  lemma {:induction false} LiveHashesFollowProbes(c: Config, log: seq<Event>, port: u16, now: real)
    requires Chronological(log) && NotBefore(log, now)
    ensures Retain(Get(Run(c, log).srcsPerPort, port), c.window, now)
         == Retain(Replay(c.window, HashesSeen(c, log, port)), c.window, now)
  {
    if log != [] {
      var prior, e := Init(log), Last(log);
      var before, h := Get(Run(c, prior).srcsPerPort, port), HashesSeen(c, prior, port);
      LiveHashesFollowProbes(c, prior, port, e.Time());
      VerticalStep(c, prior, e, port);
      LiveHashesStep(c, log, port, before, h);
      RetainAbsorbs(Get(Run(c, log).srcsPerPort, port), c.window, e.Time(), now);
      RetainAbsorbs(Replay(c.window, HashesSeen(c, log, port)), c.window, e.Time(), now);
    }
  }

  lemma {:induction false} LiveHashesStep(c: Config, log: seq<Event>, port: u16, before: seq<Entry>, h: seq<Entry>)
    requires log != [] && h == HashesSeen(c, Init(log), port) && before == Get(Run(c, Init(log)).srcsPerPort, port)
    requires Retain(before, c.window, Last(log).Time()) == Retain(Replay(c.window, h), c.window, Last(log).Time())
    ensures Retain(Get(Run(c, log).srcsPerPort, port), c.window, Last(log).Time())
         == Retain(Replay(c.window, HashesSeen(c, log, port)), c.window, Last(log).Time())
  {
    var e := Last(log);
    VerticalStep(c, Init(log), e, port);
    if e.Probed? && e.probe.port == port && !AlertsHorizontally(c, Run(c, Init(log)), e.probe) {
      InsertSeesLive(before, Replay(c.window, h), c.window, c.hash(e.probe.src), e.probe.now);
      assert Init(HashesSeen(c, log, port)) == h;
    } else {
      assert HashesSeen(c, log, port) == h;
      RetainAbsorbs(before, c.window, e.Time(), e.Time());
    }
  }

  /**
   A probe that is not answered horizontally: a vertical alert implies the threshold of distinct hashes
   within the last window, and that many hashes new to both windows force the alert.
   */
  lemma {:induction false} VerticalAlert(c: Config, log: seq<Event>, p: Probe)
    requires c.window > 0.0 && Chronological(log) && NotBefore(log, p.now)
    requires !AlertsHorizontally(c, Run(c, log), p)
    ensures var h := HashesSeen(c, log + [Probed(p)], p.port);
            var alert := Observe(c, Run(c, log), p).1 == Some(Signal(PortScanVertical, 60));
            && h != [] && Last(h) == Entry(c.hash(p.src), p.now)
            && (alert ==> |Recent(c.window, h)| >= c.srcThreshold)
            && (|Recent(c.window, h) - Earlier(c.window, h)| >= c.srcThreshold ==> alert)
  {
    var log' := log + [Probed(p)];
    assert Init(log') == log;
    var g := HashesSeen(c, log, p.port);
    var h := g + [Entry(c.hash(p.src), p.now)];
    assert HashesSeen(c, log', p.port) == h;
    LiveHashesFollowProbes(c, log, p.port, p.now);
    InsertSeesLive(Get(Run(c, log).srcsPerPort, p.port), Replay(c.window, g), c.window, c.hash(p.src), p.now);
    assert Init(h) == g;
    HashesSeenInOrder(c, log', p.port, p.now);
    CountIsSandwiched(c.window, h);
  }

  lemma {:induction false} LiveEntryHasSource(c: Config, log: seq<Event>, port: u16, x: Entry, now: real)
    requires Chronological(log) && NotBefore(log, now)
    requires GenuineSource(c, log, port, x) && now - x.at < c.window
    ensures exists src :: src in SourcesOf(log, port, now - c.window, now) && c.hash(src) == x.val
  {
    var src :| Probed(Probe(src, port, x.at)) in log && c.hash(src) == x.val;
    EventsNotAfter(log, now, Probed(Probe(src, port, x.at)));
    assert src in SourcesOf(log, port, now - c.window, now);
  }

  lemma {:induction false} EventsNotAfter(log: seq<Event>, now: real, e: Event)
    requires Chronological(log) && NotBefore(log, now) && e in log
    ensures e.Time() <= now
  {
    if e != Last(log) {
      EventsNotAfter(Init(log), Last(log).Time(), e);
    }
  }
}
