/** The adaptive baseline: a phase that moves once from Learning to Refinement, and sets that only grow. */
module Baseline {
  import opened Types
  import opened Dns
  import opened Analysis

  const LEARNING_DURATION := 1800.0

  /** What is written to disk and read back; `learnedAt` is the Unix time at which learning ended, or 0. */
  datatype Snapshot = Snapshot(
    commonPorts: set<u16>, dstIps: set<IpAddr>, countries: set<Country>, dnsDomains: set<Text>,
    protocolDist: map<byte, real>, learnedAt: nat)
  {
    function PhaseAtStart(): Phase {
      if learnedAt > 0 then Refinement else Learning
    }
  }

  const NOTHING := Snapshot({}, {}, {}, {}, map[], 0)

  class Baseline {
    const lib: Library
    const learningStarted: real
    var phase: Phase
    var commonPorts: set<u16>
    var dstIps: set<IpAddr>
    var countries: set<Country>
    var dnsDomains: set<Text>
    var protocolDist: map<byte, real>
    var learnedAt: nat
    ghost const loaded: set<Text>   // the domains a snapshot brought
    ghost var observed: set<Text>   // the names observed since, as they came

    ghost predicate Valid()
      reads `dnsDomains, `observed
    {
      dnsDomains == loaded + set x | x in observed :: lib.lower(x)
    }

    ghost function Known(): Knowledge
      reads this
    {
      Knowledge(phase, commonPorts, dstIps, countries, dnsDomains, protocolDist)
    }

    ghost function Persisted(): Snapshot
      reads this
    {
      Snapshot(commonPorts, dstIps, countries, dnsDomains, protocolDist, learnedAt)
    }

    /** A snapshot of a baseline that had finished learning resumes in Refinement; nothing persisted starts afresh. */
    constructor (lib: Library, persisted: Option<Snapshot>, now: real)
      ensures this.lib == lib && learningStarted == now
      ensures Persisted() == if persisted.Some? then persisted.value else NOTHING
      ensures phase == Persisted().PhaseAtStart()
      ensures Valid() && observed == {} && loaded == dnsDomains
    {
      var s := if persisted.Some? then persisted.value else NOTHING;
      this.lib, learningStarted := lib, now;
      commonPorts, dstIps, countries, dnsDomains := s.commonPorts, s.dstIps, s.countries, s.dnsDomains;
      protocolDist, learnedAt := s.protocolDist, s.learnedAt;
      phase := if s.learnedAt > 0 then Refinement else Learning;
      loaded, observed := s.dnsDomains, {};
    }

    /**
     The phase never goes back and the sets are not touched. Unless the clock reads 0, a restart from
     what is persisted afterwards resumes in Refinement.
     */
    method FinishLearning(unixTime: nat)
      modifies `phase, `learnedAt
      ensures Known() == old(Known()).(phase := Refinement)
      ensures learnedAt == if old(phase).Learning? then unixTime else old(learnedAt)
      ensures old(phase).Learning? && unixTime > 0 ==> Persisted().PhaseAtStart().Refinement?
    {
      if phase == Learning {
        phase := Refinement;
        learnedAt := unixTime;
      }
    }

    /** The switch happens on the first tick at or after the learning time, and on no other. */
    method TickPhase(now: real, unixTime: nat)
      modifies `phase, `learnedAt
      ensures Known() == if now - learningStarted >= 1800.0
                         then old(Known()).(phase := Refinement) else old(Known())
    {
      if phase == Learning && now - learningStarted >= LEARNING_DURATION {
        FinishLearning(unixTime);
      }
    }

    method ObservePort(port: u16)
      modifies `commonPorts
      ensures commonPorts == old(commonPorts) + {port}
    {
      commonPorts := commonPorts + {port};
    }

    method ObserveDstIp(ip: IpAddr)
      modifies `dstIps
      ensures dstIps == old(dstIps) + {ip}
    {
      dstIps := dstIps + {ip};
    }

    method ObserveCountry(code: Country)
      modifies `countries
      ensures countries == old(countries) + {code}
    {
      countries := countries + {code};
    }

    method ObserveDns(domain: Text)
      requires Valid()
      modifies `dnsDomains, `observed
      ensures Valid() && observed == old(observed) + {domain}
      ensures dnsDomains == old(dnsDomains) + {lib.lower(domain)}
    {
      dnsDomains := dnsDomains + {lib.lower(domain)};
      observed := observed + {domain};
    }

    method ObserveProtocol(proto: byte)
      modifies `protocolDist
      ensures protocolDist == SeenProtocol(old(protocolDist), proto)
      ensures 1.0 - ShareOf(protocolDist, proto) == (1.0 - EMA_ALPHA) * (1.0 - ShareOf(old(protocolDist), proto))
      ensures forall q :: q != proto ==> ShareOf(protocolDist, q) == ShareOf(old(protocolDist), q)
    {
      var entry := if proto in protocolDist then protocolDist[proto] else 0.0;
      protocolDist := protocolDist[proto := EMA_ALPHA + (1.0 - EMA_ALPHA) * entry];
    }

    method IsLearning() returns (r: bool)
      ensures r == phase.Learning?
    {
      return phase == Learning;
    }

    method IsKnownPort(port: u16) returns (r: bool)
      ensures r == (port in commonPorts)
    {
      return port in commonPorts;
    }

    method IsKnownCountry(code: Country) returns (r: bool)
      ensures r == (code in countries)
    {
      return code in countries;
    }

    /** Known is a name that was observed, or loaded, up to case. */
    method IsKnownDns(domain: Text) returns (r: bool)
      requires Valid()
      ensures r <==> lib.lower(domain) in loaded || exists x :: x in observed && lib.lower(x) == lib.lower(domain)
      ensures r == (lib.lower(domain) in dnsDomains)
    {
      return lib.lower(domain) in dnsDomains;
    }

    /** The observations an analysis makes once it has decided to update. */
    method Observe(dstPort: Option<u16>, dstIp: IpAddr, proto: byte, country: Option<Country>, name: Option<Text>)
      requires Valid()
      modifies `commonPorts, `dstIps, `countries, `dnsDomains, `protocolDist, `observed
      ensures Valid() && observed == Insert(old(observed), name)
      ensures commonPorts == Insert(old(commonPorts), dstPort) && dstIps == old(dstIps) + {dstIp}
      ensures countries == Insert(old(countries), country)
      ensures dnsDomains == if name.Some? then old(dnsDomains) + {lib.lower(name.value)} else old(dnsDomains)
      ensures protocolDist == SeenProtocol(old(protocolDist), proto)
    {
      if dstPort.Some? {
        ObservePort(dstPort.value);
      }
      ObserveDstIp(dstIp);
      ObserveProtocol(proto);
      if country.Some? {
        ObserveCountry(country.value);
      }
      if name.Some? {
        ObserveDns(name.value);
      }
    }
  }
}
