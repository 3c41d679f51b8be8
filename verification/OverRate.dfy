/**
 A whole run that ends in a reason other than that of the loudest signal: a thousand queries for a listed
 domain at one moment, and one more.
 */
module OverRate {
  import opened Types
  import opened Score
  import opened Analysis
  import opened FlagReason
  import opened EngineState
  import opened EngineRuns
  import SlidingSet
  import BL = Blacklist
  import RL = RateLimit
  import PS = PortScan
  import SF = SynFlood
  import TB = TokenBucket

  function Repeat<T>(x: T, n: nat): (r: seq<T>)
    ensures |r| == n && forall i :: 0 <= i < n ==> r[i] == x
  {
    if n == 0 then [] else Repeat(x, n - 1) + [x]
  }

  lemma {:induction false} RepeatInit<T>(x: T, n: nat)
    requires n > 0
    ensures Init(Repeat(x, n)) == Repeat(x, n - 1) && Last(Repeat(x, n)) == x
  {}

  const BURST := Arrival(QUERY_PACKET, 0.0)
  const ONE_PACKET := RL.Packet(QUERY_META.srcIp, 47, false, 0.0)
  const ONE_PROBE := PS.Probe(QUERY_META.srcIp, 53, 0.0)

  /** The agent's own limits, a blacklist that lists the query's domain, and a payload without signatures. */
  ghost predicate ListsQuery(w: Setting) {
    && w.limits == RL.DEFAULTS && w.exact == {} && w.prefixes == [] && w.domains == QueryBlocked(w.lib)
    && w.scanAll(QUERY) == []
    && w.scanConfig == PS.Defaults(w.scanConfig.hash)
  }

  /** What `n` queries at the same moment have shown the detectors. */
  function BurstLogs(n: nat): Logs {
    Logs(Repeat(RL.Seen(ONE_PACKET), n), Repeat(PS.Probed(ONE_PROBE), n), [])
  }

  lemma {:induction false} BurstLogsGrow(n: nat)
    ensures Logged(BurstLogs(n), QUERY_PACKET, QUERY_META, 0.0) == BurstLogs(n + 1)
  {}

  lemma {:induction false} AfterBurst(w: Setting, s: State, n: nat)
    requires s.logs == BurstLogs(n)
    ensures After(w, s, BURST).logs == BurstLogs(n + 1)
  {
    BurstLogsGrow(n);
  }

  lemma {:induction false} BurstRun(w: Setting, s: State, n: nat)
    requires s.logs == NO_LOGS
    ensures Run(w, s, Repeat(BURST, n)).logs == BurstLogs(n)
  {
    if n > 0 {
      RepeatInit(BURST, n);
      BurstRun(w, s, n - 1);
      AfterBurst(w, Run(w, s, Repeat(BURST, n - 1)), n - 1);
    }
  }

  // --- The rate limiter ------------------------------------------------------------------------------------------

  lemma {:induction false} BurstPackets(n: nat)
    ensures RL.PacketsOf(Repeat(RL.Seen(ONE_PACKET), n), ONE_PACKET.src) == Repeat(ONE_PACKET, n)
  {
    if n > 0 {
      RepeatInit(RL.Seen(ONE_PACKET), n);
      BurstPackets(n - 1);
    }
  }

  /** With no time to refill, every admitted packet costs one token. */
  lemma {:induction false} LevelFalls(capacity: real, rate: real, ts: seq<real>, n: nat)
    requires n < |ts| && n as real <= capacity && forall i :: 0 <= i < |ts| ==> ts[i] == 0.0
    ensures TB.Level(capacity, rate, ts, n) == capacity - n as real
  {
    if n > 0 {
      LevelFalls(capacity, rate, ts, n - 1);
      assert TB.Admits(capacity, rate, ts, n - 1);
      assert TB.Charged(capacity, rate, ts, n - 1) == capacity - n as real;
      assert ts[n] - ts[n - 1] == 0.0 && 0.0 * rate == 0.0;
    }
  }

  lemma {:induction false} BurstIsOverRate(l: RL.Limits, n: nat)
    requires l.capacity == n as real
    ensures RateOf(l, Repeat(RL.Seen(ONE_PACKET), n), ONE_PACKET) == Some(Signal(RatePackets, SCORE_RATE_EXCEEDED))
  {
    BurstPackets(n);
    var h := Repeat(ONE_PACKET, n) + [ONE_PACKET];
    LevelFalls(l.capacity, l.pktRate, RL.Times(h), n);
    RL.VerdictByParts(l, h, n);
  }

  // --- The scan detector -----------------------------------------------------------------------------------------

  /** One port of one source, whatever their number. */
  function BurstTables(hash: IpAddr -> u16): PS.State {
    PS.State(map[ONE_PROBE.src := [SlidingSet.Entry(53, 0.0)]], map[53 := [SlidingSet.Entry(hash(ONE_PROBE.src), 0.0)]])
  }

  lemma {:induction false} SameEntry(e: SlidingSet.Entry)
    requires e.at == 0.0
    ensures SlidingSet.Insert([], 60.0, e.val, 0.0) == [e] && SlidingSet.Insert([e], 60.0, e.val, 0.0) == [e]
  {
    assert SlidingSet.Retain([e], 60.0, 0.0) == [e];
    assert e in [e];
    assert [] + [e] == [e];
  }

  lemma {:induction false} ProbeAgain(hash: IpAddr -> u16, s: PS.State)
    requires s == PS.State(map[], map[]) || s == BurstTables(hash)
    ensures PS.Observe(PS.Defaults(hash), s, ONE_PROBE) == (BurstTables(hash), None)
  {
    SameEntry(SlidingSet.Entry(53, 0.0));
    SameEntry(SlidingSet.Entry(hash(ONE_PROBE.src), 0.0));
    var t := PS.Observe(PS.Defaults(hash), s, ONE_PROBE).0;
    assert t.portsPerSrc == BurstTables(hash).portsPerSrc;
    assert t.srcsPerPort == BurstTables(hash).srcsPerPort;
  }

  lemma {:induction false} BurstProbes(hash: IpAddr -> u16, n: nat)
    ensures var log := Repeat(PS.Probed(ONE_PROBE), n);
            && PS.Unswept(log) == log
            && PS.Run(PS.Defaults(hash), log) == if n == 0 then PS.State(map[], map[]) else BurstTables(hash)
  {
    if n > 0 {
      RepeatInit(PS.Probed(ONE_PROBE), n);
      BurstProbes(hash, n - 1);
      ProbeAgain(hash, PS.Run(PS.Defaults(hash), Repeat(PS.Probed(ONE_PROBE), n - 1)));
    }
  }

  lemma {:induction false} BurstIsNoScan(hash: IpAddr -> u16, n: nat)
    ensures ScanOf(PS.Defaults(hash), Repeat(PS.Probed(ONE_PROBE), n), QUERY_META, 0.0) == None
  {
    BurstProbes(hash, n);
    ProbeAgain(hash, PS.Run(PS.Defaults(hash), Repeat(PS.Probed(ONE_PROBE), n)));
  }

  // --- The thousand and first ------------------------------------------------------------------------------------

  lemma {:induction false} QueryIsListedFor(w: Setting)
    requires ListsQuery(w)
    ensures DomainOf(w.lib, w.domains, QueryName(w.lib, QUERY_PACKET, QUERY_META))
         == Some(Signal(BlacklistedDomain, SCORE_BLACKLIST_DOMAIN))
  {
    QueryIsRead(w.lib);
  }

  lemma {:induction false} AddressesAreUnlisted(ip: IpAddr)
    ensures BL.IpAnswer({}, [], ip) == None
  {}

  /** The detectors answer the thousand and first query as the example has it. */
  lemma {:induction false} BurstAnswers(w: Setting, n: nat)
    requires ListsQuery(w) && n == 1000
    ensures AnswersTo(w, BurstLogs(n), QUERY_PACKET, QUERY_META, 0.0) == OVER_RATE_FOR_LISTED
  {
    var hash := w.scanConfig.hash;
    BurstIsOverRate(w.limits, n);
    BurstIsNoScan(hash, n);
    QueryIsListedFor(w);
    AddressesAreUnlisted(QUERY_META.srcIp);
    AddressesAreUnlisted(QUERY_META.dstIp);
    assert Payload(QUERY_PACKET, QUERY_META) == QUERY;
  }

  /**
   An engine with the agent's limits that lists the query's domain, shown a thousand such queries at one
   moment: the next is reported as over-rate, although its domain scores twice as much.
   */
  lemma {:induction false} RunHidesListedDomain(w: Setting, s: State, n: nat)
    requires ListsQuery(w) && s.logs == NO_LOGS && n == 1000
    ensures var t := Run(w, s, Repeat(BURST, n));
            var country := w.countryCode(QUERY_META.srcIp);
            var r := ReadsOf(w.lib.lower, t.known, QUERY_META, country, QueryName(w.lib, QUERY_PACKET, QUERY_META));
            var a := AnswersTo(w, t.logs, QUERY_PACKET, QUERY_META, 0.0);
            && ResultAt(w, t, QUERY_PACKET, 0.0).flag == FLAG_RATE_EXCEEDED
            && !FlagNamesLoudest(Stages(w.lib, QUERY_PACKET, QUERY_META, a, r))
  {
    var t := Run(w, s, Repeat(BURST, n));
    BurstRun(w, s, n);
    BurstAnswers(w, n);
    var r := ReadsOf(w.lib.lower, t.known, QUERY_META, w.countryCode(QUERY_META.srcIp),
                     QueryName(w.lib, QUERY_PACKET, QUERY_META));
    LouderDomainIsNotNamed(w.lib, r);
  }
}
