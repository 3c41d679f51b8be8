/** When a result is clean: exactly, in terms of the signals raised, and what the learning phase has to do with it. */
module CleanResult {
  import opened Types
  import opened Score
  import opened Capture
  import opened Dns
  import opened Analysis

  // --- Every signal has its price ------------------------------------------------------------------------

  predicate PricedStages(stages: seq<Stage>) {
    forall k :: 0 <= k < |stages| ==> AllPriced(stages[k].signals)
  }

  lemma {:induction false} NameSignalIsPriced(s: Signal)
    requires IsNameSignal(s)
    ensures Priced(s)
  {}

  lemma {:induction false} NameSignalsArePriced(lib: Library, name: Text)
    ensures AllPriced(NameSignals(lib, name))
  {
    var s := NameSignals(lib, name);
    NameSignalsScore(lib, name);
    forall i | 0 <= i < |s|
      ensures Priced(s[i])
    {
      NameSignalIsPriced(s[i]);
    }
  }

  lemma {:induction false} PricedAppend(s: seq<Signal>, t: seq<Signal>)
    requires AllPriced(s) && AllPriced(t)
    ensures AllPriced(s + t)
  {}

  lemma {:induction false} PayloadSignalsArePriced(lib: Library, p: seq<byte>)
    ensures AllPriced(PayloadSignals(lib, p))
  {
    var name := Extract(lib, p);
    if name.Some? {
      var tunnel := Signal(DnsTunnelLargeResponse, SCORE_DNS_ANOMALY + 5);
      NameSignalsArePriced(lib, name.value);
      assert Priced(tunnel);
      PricedAppend(NameSignals(lib, name.value), if LooksLikeTunnel(p) then [tunnel] else []);
    }
  }

  lemma {:induction false} PricedStagesAppend(s: seq<Stage>, t: seq<Stage>)
    requires PricedStages(s) && PricedStages(t)
    ensures PricedStages(s + t)
  {}

  lemma {:induction false} AnswersArePriced(a: Answers)
    requires Plausible(a)
    ensures AllPriced(ToSeq(a.srcListed)) && AllPriced(ToSeq(a.dstListed)) && AllPriced(ToSeq(a.rate))
    ensures AllPriced(ToSeq(a.scan)) && AllPriced(a.syn) && AllPriced(a.payload) && AllPriced(ToSeq(a.domainListed))
  {}

  lemma {:induction false} HeaderStagesArePriced(pkt: RawPacket, tm: TransportMeta)
    ensures PricedStages(HeaderStages(pkt, tm))
  {}

  lemma {:induction false} NameStagesArePriced(lib: Library, pkt: RawPacket, tm: TransportMeta, a: Answers, r: Reads)
    requires AllPriced(ToSeq(a.domainListed))
    ensures PricedStages(NameStages(lib, pkt, tm, a, r))
  {
    var name := QueryName(lib, pkt, tm);
    if name.Some? {
      NameSignalsArePriced(lib, name.value);
      PayloadSignalsArePriced(lib, Payload(pkt, tm));
    }
  }

  lemma {:induction false} StagesArePriced(
    lib: Library, pkt: RawPacket, tm: TransportMeta, a: Answers, r: Reads)
    requires Plausible(a)
    ensures PricedStages(Stages(lib, pkt, tm, a, r))
  {
    AnswersArePriced(a);
    HeaderStagesArePriced(pkt, tm);
    NameStagesArePriced(lib, pkt, tm, a, r);
    assert Priced(Signal(GeoNewCountry, SCORE_GEO_ANOMALY)) && Priced(Signal(VlanReservedId, 20));
    PricedGroups(ListStages(a), CounterStages(a), HeaderStages(pkt, tm),
                 Stage(FLAG_GEO_ANOMALY, When(r.newCountry, Signal(GeoNewCountry, SCORE_GEO_ANOMALY))),
                 Stage(FLAG_PAYLOAD_SIG, a.payload), NameStages(lib, pkt, tm, a, r), Stage(0, PortStage(tm, r)),
                 Stage(0, When(ReservedVlan(tm), Signal(VlanReservedId, 20))));
  }

  lemma {:induction false} PricedGroups(
    lists: seq<Stage>, counters: seq<Stage>, headers: seq<Stage>, geo: Stage, payload: Stage, names: seq<Stage>,
    port: Stage, vlan: Stage)
    requires PricedStages(lists) && PricedStages(counters) && PricedStages(headers) && PricedStages(names)
    requires AllPriced(geo.signals) && AllPriced(payload.signals) && AllPriced(port.signals) && AllPriced(vlan.signals)
    ensures PricedStages(lists + counters + headers + [geo] + [payload] + names + [port] + [vlan])
  {
    PricedStagesAppend(lists, counters);
    PricedStagesAppend(lists + counters, headers);
    PricedStagesAppend(lists + counters + headers, [geo]);
    PricedStagesAppend(lists + counters + headers + [geo], [payload]);
    PricedStagesAppend(lists + counters + headers + [geo] + [payload], names);
    PricedStagesAppend(lists + counters + headers + [geo] + [payload] + names, [port]);
    PricedStagesAppend(lists + counters + headers + [geo] + [payload] + names + [port], [vlan]);
  }

  lemma {:induction false} FlattenPriced(stages: seq<Stage>)
    requires PricedStages(stages)
    ensures AllPriced(Flatten(stages))
  {
    if stages != [] {
      assert forall k :: 0 <= k < |Init(stages)| ==> Init(stages)[k] == stages[k];
      FlattenPriced(Init(stages));
    }
  }

  lemma {:induction false} PricesAreTens(s: seq<Signal>)
    requires AllPriced(s)
    ensures NonNegative(Scores(s)) && forall i :: 0 <= i < |s| ==> s[i].score >= 10
  {
    forall i | 0 <= i < |s|
      ensures s[i].score >= 10
    {
      PriceInRange(s[i]);
    }
  }

  // --- Clean, exactly ------------------------------------------------------------------------------------

  lemma {:induction false} PairWithin(xs: seq<int>, i: nat, j: nat)
    requires i < j < |xs|
    ensures multiset([xs[i], xs[j]]) <= multiset(xs)
  {
    assert xs == xs[..i] + [xs[i]] + xs[i + 1..j] + [xs[j]] + xs[j + 1..];
    assert multiset(xs) == multiset(xs[..i]) + multiset{xs[i]} + multiset(xs[i + 1..j]) + multiset{xs[j]}
                           + multiset(xs[j + 1..]);
  }

  /** Any two signals reach the threshold through the correlation bonus. */
  lemma {:induction false} PairIsNotClean(s: seq<Signal>, i: nat, j: nat, f: int)
    requires AllPriced(s) && i < j < |s|
    ensures !FromSignals(s, f).IsClean()
  {
    var xs := Scores(s);
    var pair := [xs[i], xs[j]];
    PricesAreTens(s);
    PairWithin(xs, i, j);
    TotalMonotone(pair, xs);
    assert SumOf(pair) == xs[i] + SumOf([xs[j]]) && SumOf([xs[j]]) == xs[j] + SumOf([]);
  }

  /** The signals that alone leave a result clean. */
  predicate Faint(s: Signal) {
    || s.name.RstInjection? || s.name.IcmpUnusualType? || s.name.IpFragmentation? || s.name.PacketTruncated?
    || s.name.VlanReservedId? || s.name.DnsSuspiciousTld?
    || (s.name.UnusualPort? && s.score == SCORE_UNUSUAL_PORT_GLOBAL)
  }

  predicate AtMostOneFaint(s: seq<Signal>) {
    s == [] || (|s| == 1 && Faint(s[0]))
  }

  lemma {:induction false} FaintIffBelowThreshold(s: Signal)
    requires Priced(s)
    ensures Faint(s) <==> s.score < THRESHOLD_INFO
  {}

  lemma {:induction false} TotalOfOne(x: int)
    requires 0 <= x <= SCORE_CAP
    ensures TotalOf([x]) == x
  {
    assert SumOf([x]) == x + SumOf([]);
  }

  /** A result is clean exactly when it has no signal, or a single one that is faint. */
  lemma {:induction false} CleanIff(s: seq<Signal>, f: int)
    requires AllPriced(s)
    ensures FromSignals(s, f).IsClean() <==> AtMostOneFaint(s)
  {
    if |s| >= 2 {
      PairIsNotClean(s, 0, 1, f);
    } else if |s| == 1 {
      FaintIffBelowThreshold(s[0]);
      PriceInRange(s[0]);
      assert Scores(s) == [s[0].score];
      TotalOfOne(s[0].score);
    }
  }

  lemma {:induction false} PriceInRange(s: Signal)
    requires Priced(s)
    ensures 10 <= s.score <= SCORE_BLACKLIST_IP
  {}

  lemma {:induction false} CleanStagesIff(stages: seq<Stage>)
    requires PricedStages(stages)
    ensures Conclude(stages).IsClean() <==> AtMostOneFaint(Flatten(stages))
  {
    FlattenPriced(stages);
    CleanIff(Flatten(stages), FlagOf(stages));
  }

  /** A signal raised by a stage is among all the signals. */
  lemma {:induction false} Locate(stages: seq<Stage>, k: nat, x: Signal) returns (i: nat)
    requires k < |stages| && x in stages[k].signals
    ensures i < |Flatten(stages)| && Flatten(stages)[i] == x
  {
    var prior, last := Init(stages), Last(stages).signals;
    if k == |stages| - 1 {
      var j :| 0 <= j < |last| && last[j] == x;
      i := |Flatten(prior)| + j;
    } else {
      i := Locate(prior, k, x);
    }
  }

  /** Signals of two different stages are at two different places. */
  lemma {:induction false} LocateTwo(stages: seq<Stage>, k: nat, m: nat, x: Signal, y: Signal)
    returns (i: nat, j: nat)
    requires k < m < |stages| && x in stages[k].signals && y in stages[m].signals
    ensures i < j < |Flatten(stages)| && Flatten(stages)[i] == x && Flatten(stages)[j] == y
  {
    var prior, last := Init(stages), Last(stages).signals;
    if m == |stages| - 1 {
      i := Locate(prior, k, x);
      var n :| 0 <= n < |last| && last[n] == y;
      j := |Flatten(prior)| + n;
    } else {
      i, j := LocateTwo(prior, k, m, x, y);
    }
  }

  /** A signal that is not faint, in any stage, makes the result non-clean. */
  lemma {:induction false} LoudStageIsNotClean(stages: seq<Stage>, k: nat, s: Signal)
    requires PricedStages(stages) && k < |stages| && s in stages[k].signals && !Faint(s)
    ensures !Conclude(stages).IsClean()
  {
    CleanStagesIff(stages);
    var i := Locate(stages, k, s);
  }

  /** A name the heuristics object to is inspected twice, so its packet is never clean. */
  lemma {:induction false} LoudNameIsNotClean(stages: seq<Stage>, k: nat, m: nat, x: Signal)
    requires PricedStages(stages) && k < m < |stages|
    requires x in stages[k].signals && x in stages[m].signals
    ensures !Conclude(stages).IsClean()
  {
    CleanStagesIff(stages);
    var i, j := LocateTwo(stages, k, m, x, x);
  }

  // --- What a clean result rules out -----------------------------------------------------------------------

  lemma {:induction false} StagesInPlace(lib: Library, pkt: RawPacket, tm: TransportMeta, a: Answers, r: Reads)
    ensures var stages := Stages(lib, pkt, tm, a, r);
            && stages[GEO].signals == When(r.newCountry, Signal(GeoNewCountry, SCORE_GEO_ANOMALY))
            && stages[PORT].signals == PortStage(tm, r)
            && stages[LISTED].signals == ToSeq(a.domainListed)
            && stages[NAME].signals == NameStage(lib, QueryName(lib, pkt, tm), r)
            && stages[TUNNEL].signals == PayloadStage(lib, pkt, tm)
  {}

  predicate CleanRun(stages: seq<Stage>) {
    |stages| == 15 && PricedStages(stages) && Conclude(stages).IsClean()
  }

  lemma {:induction false} CleanCountryIsKnown(stages: seq<Stage>, isNew: bool)
    requires CleanRun(stages)
    requires stages[GEO].signals == When(isNew, Signal(GeoNewCountry, SCORE_GEO_ANOMALY))
    ensures !isNew
  {
    if isNew {
      LoudStageIsNotClean(stages, GEO, Signal(GeoNewCountry, SCORE_GEO_ANOMALY));
    }
  }

  lemma {:induction false} CleanPortIsKnown(stages: seq<Stage>, tm: TransportMeta, r: Reads)
    requires CleanRun(stages) && stages[PORT].signals == PortStage(tm, r)
    ensures tm.dstPort.Some? && tm.dstPort.value in WELL_KNOWN_PORTS ==> !r.newPort
  {
    if tm.dstPort.Some? && tm.dstPort.value in WELL_KNOWN_PORTS && r.newPort {
      LoudStageIsNotClean(stages, PORT, Signal(UnusualPort, SCORE_UNUSUAL_PORT_NETWORK));
    }
  }

  lemma {:induction false} CleanDomainIsUnlisted(stages: seq<Stage>, listed: Option<Signal>)
    requires CleanRun(stages) && stages[LISTED].signals == ToSeq(listed)
    requires listed.Some? ==> listed.value.name.BlacklistedDomain?
    ensures listed.None?
  {
    if listed.Some? {
      LoudStageIsNotClean(stages, LISTED, listed.value);
    }
  }

  lemma {:induction false} CleanNameIsQuiet(
    lib: Library, pkt: RawPacket, tm: TransportMeta, stages: seq<Stage>, r: Reads)
    requires CleanRun(stages)
    requires stages[NAME].signals == NameStage(lib, QueryName(lib, pkt, tm), r)
    requires stages[TUNNEL].signals == PayloadStage(lib, pkt, tm)
    ensures var name := QueryName(lib, pkt, tm);
            name.Some? && !r.knownName ==> NameSignals(lib, name.value) == []
  {
    var name := QueryName(lib, pkt, tm);
    if name.Some? && !r.knownName {
      var s := NameSignals(lib, name.value);
      if s != [] {
        assert s[0] in PayloadSignals(lib, Payload(pkt, tm));
        LoudNameIsNotClean(stages, NAME, TUNNEL, s[0]);
      }
    }
  }

  // --- What the phase changes --------------------------------------------------------------------------

  /**
   Learning silences the new-country and the unusual-port signal and nothing else: on the same packet
   and the same learned sets every other stage is the same in both phases.
   */
  lemma {:induction false} PhaseChangesTwoStages(
    lib: Library, pkt: RawPacket, tm: TransportMeta, a: Answers, k: Knowledge, country: Option<Country>)
    ensures var name := QueryName(lib, pkt, tm);
            var l := Stages(lib, pkt, tm, a, ReadsOf(lib.lower, k.(phase := Learning), tm, country, name));
            var r := Stages(lib, pkt, tm, a, ReadsOf(lib.lower, k.(phase := Refinement), tm, country, name));
            && !l[GEO].Raised() && !l[PORT].Raised()
            && l == r[GEO := Stage(FLAG_GEO_ANOMALY, [])][PORT := Stage(0, [])]
  {}

  predicate AllSilent(stages: seq<Stage>) {
    forall k :: 0 <= k < |stages| ==> !stages[k].Raised()
  }

  lemma {:induction false} AllSilentIff(stages: seq<Stage>)
    requires stages != []
    ensures AllSilent(stages) <==> AllSilent(Init(stages)) && !Last(stages).Raised()
  {
    if AllSilent(Init(stages)) && !Last(stages).Raised() {
      forall k | 0 <= k < |stages|
        ensures !stages[k].Raised()
      {
        if k < |stages| - 1 {
          assert stages[k] == Init(stages)[k];
        }
      }
    }
  }

  lemma {:induction false} SilentStages(stages: seq<Stage>)
    ensures Flatten(stages) == [] <==> AllSilent(stages)
  {
    if stages != [] {
      SilentStages(Init(stages));
      AllSilentIff(stages);
      NothingPlusNothing(Flatten(Init(stages)), Last(stages).signals);
    }
  }

  /** What the stages beside those of the baseline's country and port checks raise. */
  function BesideBaseline(lib: Library, pkt: RawPacket, tm: TransportMeta, a: Answers, knownName: bool): seq<Signal> {
    Flatten(Stages(lib, pkt, tm, a, Reads(false, knownName, false)))
  }

  /**
   While learning, a result is clean exactly when the other stages raise at most one signal in all, and
   that one is a RST, ICMP, fragment, truncation or VLAN signal or the suspicious ending of a known name.
   */
  lemma {:induction false} LearningIsCleanIff(
    lib: Library, pkt: RawPacket, tm: TransportMeta, a: Answers, k: Knowledge, country: Option<Country>)
    requires Plausible(a) && k.phase.Learning?
    ensures var name := QueryName(lib, pkt, tm);
            var rest := BesideBaseline(lib, pkt, tm, a, name.Some? && lib.lower(name.value) in k.domains);
            Conclude(Stages(lib, pkt, tm, a, ReadsOf(lib.lower, k, tm, country, name))).IsClean()
            <==> AtMostOneFaint(rest)
  {
    var name := QueryName(lib, pkt, tm);
    var r := ReadsOf(lib.lower, k, tm, country, name);
    assert r == Reads(false, r.knownName, false);
    StagesArePriced(lib, pkt, tm, a, r);
    CleanStagesIff(Stages(lib, pkt, tm, a, r));
  }

  /** A packet from a listed source is reported as loudly while learning as it ever is. */
  lemma {:induction false} LearningStillAlerts(
    lib: Library, pkt: RawPacket, tm: TransportMeta, a: Answers, r: Reads)
    requires Plausible(a) && a.srcListed.Some?
    ensures !Conclude(Stages(lib, pkt, tm, a, r)).IsClean()
  {
    var stages := Stages(lib, pkt, tm, a, r);
    StagesArePriced(lib, pkt, tm, a, r);
    LoudStageIsNotClean(stages, 0, stages[0].signals[0]);
  }
}
