/** What the baseline learns, and the vigilance its learning keeps once it is past the learning phase. */
module Vigilance {
  import opened Types
  import opened Capture
  import opened Dns
  import opened Analysis
  import opened CleanResult

  /** How names are stored, which ports are well known, and which names are harmless. */
  datatype Norms = Norms(lower: Text -> Text, wellKnown: set<u16>, harmless: Text -> bool)

  /** Harmless is a name no heuristic objects to and that is not among the blacklisted domains `blocked`. */
  function EngineNorms(lib: Library, blocked: set<Text>): Norms {
    Norms(lib.lower, WELL_KNOWN_PORTS,
          (name: Text) => NameSignals(lib, name) == [] && !Listed(lib, blocked, name))
  }

  /** The packet's country, well-known port and name gave no cause for suspicion. */
  predicate Unsuspicious(n: Norms, tm: TransportMeta, name: Option<Text>, r: Reads) {
    && !r.newCountry
    && (tm.dstPort.Some? && tm.dstPort.value in n.wellKnown ==> !r.newPort)
    && (name.Some? && !r.knownName ==> n.harmless(name.value))
  }

  /** A clean result means a known country, a known port where it is a well-known one, and a harmless or known name. */
  lemma {:induction false} CleanMeansNothingNew(
    lib: Library, blocked: set<Text>, pkt: RawPacket, tm: TransportMeta, a: Answers, r: Reads)
    requires Plausible(a) && Consults(lib, blocked, pkt, tm, a)
    requires Conclude(Stages(lib, pkt, tm, a, r)).IsClean()
    ensures Unsuspicious(EngineNorms(lib, blocked), tm, QueryName(lib, pkt, tm), r) && a.domainListed.None?
  {
    StagesArePriced(lib, pkt, tm, a, r);
    StagesInPlace(lib, pkt, tm, a, r);
    var stages := Stages(lib, pkt, tm, a, r);
    CleanCountryIsKnown(stages, r.newCountry);
    CleanPortIsKnown(stages, tm, r);
    CleanDomainIsUnlisted(stages, a.domainListed);
    CleanNameIsQuiet(lib, pkt, tm, stages, r);
  }

  /** The stored form of a harmless name, that name being one of `names`. */
  ghost predicate HarmlessDomain(n: Norms, names: set<Text>, d: Text) {
    exists name :: name in names && d == n.lower(name) && n.harmless(name)
  }

  /**
   From `k` to `k'` nothing was forgotten, no country and no well-known port was added, and every domain
   added is the stored form of a harmless name among `names`.
   */
  ghost predicate OnlyQuietlyLearned(n: Norms, names: set<Text>, k: Knowledge, k': Knowledge) {
    && k'.phase == k.phase
    && k'.countries == k.countries
    && k'.ports * n.wellKnown == k.ports * n.wellKnown
    && k.ports <= k'.ports && k.dstIps <= k'.dstIps && k.domains <= k'.domains
    && forall d :: d in k'.domains - k.domains ==> HarmlessDomain(n, names, d)
  }

  lemma {:induction false} LearnedQuietly(
    n: Norms, k: Knowledge, tm: TransportMeta, country: Option<Country>, name: Option<Text>)
    requires k.phase.Refinement? && Unsuspicious(n, tm, name, ReadsOf(n.lower, k, tm, country, name))
    ensures OnlyQuietlyLearned(n, Insert({}, name), k, Learned(n.lower, k, tm, country, name))
  {
    var k' := Learned(n.lower, k, tm, country, name);
    forall d | d in k'.domains - k.domains
      ensures HarmlessDomain(n, Insert({}, name), d)
    {
      assert name.value in Insert({}, name);
    }
  }

  /**
   In Refinement one analysis never adds a country or a well-known port, and the only domain it may add
   is its own query name, if that is unlisted and no heuristic objects to it.
   */
  lemma {:induction false} AnalysisLearnsQuietly(
    lib: Library, blocked: set<Text>, k: Knowledge,
    pkt: RawPacket, tm: TransportMeta, a: Answers, country: Option<Country>)
    requires Plausible(a) && Consults(lib, blocked, pkt, tm, a) && k.phase.Refinement?
    ensures OnlyQuietlyLearned(EngineNorms(lib, blocked), Insert({}, QueryName(lib, pkt, tm)), k,
                               Analyzed(lib, k, pkt, tm, a, country).1)
  {
    var name := QueryName(lib, pkt, tm);
    var r := ReadsOf(lib.lower, k, tm, country, name);
    if Conclude(Stages(lib, pkt, tm, a, r)).IsClean() {
      CleanMeansNothingNew(lib, blocked, pkt, tm, a, r);
      LearnedQuietly(EngineNorms(lib, blocked), k, tm, country, name);
    }
  }

  // --- Any run, one packet at a time -------------------------------------------------------------------------

  /** One analysis by itself, or one tick of the sweeper that may end the learning. */
  datatype Turn = Turn(pkt: RawPacket, tm: TransportMeta, a: Answers, country: Option<Country>) | Switch

  function AfterTurn(lib: Library, k: Knowledge, t: Turn): Knowledge {
    match t
    case Turn(pkt, tm, a, country) => Analyzed(lib, k, pkt, tm, a, country).1
    case Switch => k.(phase := Refinement)
  }

  function AfterTurns(lib: Library, k: Knowledge, turns: seq<Turn>): Knowledge {
    if turns == [] then k else AfterTurn(lib, AfterTurns(lib, k, Init(turns)), Last(turns))
  }

  /** The query names of a run. */
  function NamesOf(lib: Library, turns: seq<Turn>): (names: set<Text>)
    ensures forall i :: 0 <= i < |turns| && turns[i].Turn? ==>
              Insert({}, QueryName(lib, turns[i].pkt, turns[i].tm)) <= names
    ensures forall name :: name in names ==>
              exists i :: 0 <= i < |turns| && turns[i].Turn? && QueryName(lib, turns[i].pkt, turns[i].tm) == Some(name)
  {
    if turns == [] then {}
    else
      var t := Last(turns);
      if t.Turn? then Insert(NamesOf(lib, Init(turns)), QueryName(lib, t.pkt, t.tm)) else NamesOf(lib, Init(turns))
  }

  predicate PlausibleTurns(lib: Library, blocked: set<Text>, turns: seq<Turn>) {
    forall i :: 0 <= i < |turns| && turns[i].Turn? ==>
      Plausible(turns[i].a) && Consults(lib, blocked, turns[i].pkt, turns[i].tm, turns[i].a)
  }

  lemma {:induction false} Chain(
    n: Norms, names: set<Text>, more: set<Text>, all: set<Text>, k: Knowledge, k1: Knowledge, k2: Knowledge)
    requires OnlyQuietlyLearned(n, names, k, k1) && OnlyQuietlyLearned(n, more, k1, k2)
    requires names <= all && more <= all
    ensures OnlyQuietlyLearned(n, all, k, k2)
  {
    forall d | d in k2.domains - k.domains
      ensures HarmlessDomain(n, all, d)
    {
      if d in k1.domains {
        assert HarmlessDomain(n, names, d);
      } else {
        assert HarmlessDomain(n, more, d);
      }
    }
  }

  /**
   Once in Refinement, over any run of analyses, one at a time, no country and no well-known port is
   added, and every domain added is that of a query name of the run, unlisted and unobjectionable.
   */
  lemma {:induction false} RefinementLearnsQuietly(lib: Library, blocked: set<Text>, k: Knowledge, turns: seq<Turn>)
    requires k.phase.Refinement? && PlausibleTurns(lib, blocked, turns)
    ensures OnlyQuietlyLearned(EngineNorms(lib, blocked), NamesOf(lib, turns), k, AfterTurns(lib, k, turns))
  {
    if turns != [] {
      var prior, t := Init(turns), Last(turns);
      assert forall i :: 0 <= i < |prior| ==> prior[i] == turns[i];
      RefinementLearnsQuietly(lib, blocked, k, prior);
      var k1 := AfterTurns(lib, k, prior);
      if t.Turn? {
        AnalysisLearnsQuietly(lib, blocked, k1, t.pkt, t.tm, t.a, t.country);
        Chain(EngineNorms(lib, blocked), NamesOf(lib, prior), Insert({}, QueryName(lib, t.pkt, t.tm)),
              NamesOf(lib, turns), k, k1, AfterTurns(lib, k, turns));
      }
    }
  }

  // --- Protocol shares -----------------------------------------------------------------------------------------

  function SeenProtocols(protocols: map<byte, real>, seen: seq<byte>): map<byte, real> {
    if seen == [] then protocols else SeenProtocol(SeenProtocols(protocols, Init(seen)), Last(seen))
  }

  function Count(seen: seq<byte>, proto: byte): nat {
    if seen == [] then 0 else Count(Init(seen), proto) + if Last(seen) == proto then 1 else 0
  }

  /** A distance `d` after `n` shrinkings by the factor 1 - alpha. */
  function Shrunk(d: real, n: nat): real {
    if n == 0 then d else (1.0 - EMA_ALPHA) * Shrunk(d, n - 1)
  }

  /**
   After any observations, a protocol's share is what its own of them alone make of it: each shrinks the
   distance to 1 by the factor 1 - alpha. Packets of other protocols have no part in it.
   */
  lemma {:induction false} ShareCountsOwnPackets(protocols: map<byte, real>, seen: seq<byte>, proto: byte)
    ensures 1.0 - ShareOf(SeenProtocols(protocols, seen), proto)
         == Shrunk(1.0 - ShareOf(protocols, proto), Count(seen, proto))
  {
    if seen != [] {
      ShareCountsOwnPackets(protocols, Init(seen), proto);
      OneMoreSeen(SeenProtocols(protocols, Init(seen)), Last(seen), proto);
    }
  }

  lemma {:induction false} OneMoreSeen(protocols: map<byte, real>, seen: byte, proto: byte)
    ensures 1.0 - ShareOf(SeenProtocol(protocols, seen), proto)
         == (if seen == proto then 1.0 - EMA_ALPHA else 1.0) * (1.0 - ShareOf(protocols, proto))
  {}

  lemma {:induction false} ShrunkInRange(d: real, n: nat)
    requires d >= 0.0
    ensures 0.0 <= Shrunk(d, n) <= d
  {
    if n > 0 {
      ShrunkInRange(d, n - 1);
    }
  }

  /** So a share that starts in the unit interval never leaves it and never falls. */
  lemma {:induction false} ShareStaysInUnit(protocols: map<byte, real>, seen: seq<byte>, proto: byte)
    requires 0.0 <= ShareOf(protocols, proto) <= 1.0
    ensures ShareOf(protocols, proto) <= ShareOf(SeenProtocols(protocols, seen), proto) <= 1.0
  {
    ShareCountsOwnPackets(protocols, seen, proto);
    ShrunkInRange(1.0 - ShareOf(protocols, proto), Count(seen, proto));
  }
}
