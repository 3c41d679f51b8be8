/**
 Many analyses at once. Each reads and writes the baseline in separate lock-sized steps, and the
 sweeper may end the learning between any two of them.
 */
module Flights {
  import opened Types
  import opened Capture
  import opened Dns
  import opened Analysis
  import opened Vigilance

  type Id = nat

  /** A packet under analysis: what the other detectors answer about it, its country and its query name. */
  datatype Job = Job(pkt: RawPacket, tm: TransportMeta, a: Answers, country: Option<Country>, name: Option<Text>)

  /**
   What the steps below take from the analysis proper: its norms, which jobs can arise, and when a job
   with given reads comes out clean.
   */
  datatype Policy = Policy(norms: Norms, genuine: Job -> bool, clean: (Job, Reads) -> bool)

  /** The next access an analysis makes to the baseline, in program order. */
  datatype Access =
    | GeoPhase | CountryLookup | NameLookup | PortPhase | PortLookup | Decision
    | WritePort | WriteDstIp | WriteProtocol | WriteCountry | WriteName | Finished
  {
    predicate Writes() {
      WritePort? || WriteDstIp? || WriteProtocol? || WriteCountry? || WriteName?
    }
  }

  /** `late` records that the analysis began in Refinement. */
  datatype Flight = Flight(job: Job, late: bool, at: Access, read: Reads)

  datatype State = State(known: Knowledge, flights: map<Id, Flight>)

  datatype Step = Begin(id: Id, job: Job) | Advance(flight: Id) | Switch

  const NOTHING_READ := Reads(false, false, false)

  /** A clean outcome leaves no cause for suspicion. */
  ghost predicate Vigilant(p: Policy) {
    forall j, r :: p.genuine(j) && p.clean(j, r) ==> Unsuspicious(p.norms, j.tm, j.name, r)
  }

  /** One access: the analysis after it. */
  function Moved(p: Policy, k: Knowledge, f: Flight): Flight {
    var j, name := f.job, f.job.name;
    match f.at
    case GeoPhase => f.(at := if j.country.Some? && k.phase.Refinement? then CountryLookup else NameLookup)
    case CountryLookup =>
      f.(at := NameLookup, read := f.read.(newCountry := j.country.Some? && j.country.value !in k.countries))
    case NameLookup =>
      f.(at := PortPhase, read := f.read.(knownName := name.Some? && p.norms.lower(name.value) in k.domains))
    case PortPhase => f.(at := if j.tm.dstPort.Some? && k.phase.Refinement? then PortLookup else Decision)
    case PortLookup =>
      f.(at := Decision, read := f.read.(newPort := j.tm.dstPort.Some? && j.tm.dstPort.value !in k.ports))
    case Decision => f.(at := if k.phase.Learning? || p.clean(j, f.read) then WritePort else Finished)
    case WritePort => f.(at := WriteDstIp)
    case WriteDstIp => f.(at := WriteProtocol)
    case WriteProtocol => f.(at := WriteCountry)
    case WriteCountry => f.(at := WriteName)
    case WriteName => f.(at := Finished)
    case Finished => f
  }

  /** The same access: the baseline after it. */
  function Written(p: Policy, k: Knowledge, f: Flight): Knowledge {
    var j, name := f.job, f.job.name;
    match f.at
    case WritePort => k.(ports := Insert(k.ports, j.tm.dstPort))
    case WriteDstIp => k.(dstIps := k.dstIps + {j.tm.dstIp})
    case WriteProtocol => k.(protocols := SeenProtocol(k.protocols, j.tm.protocol))
    case WriteCountry => k.(countries := Insert(k.countries, j.country))
    case WriteName => k.(domains := if name.Some? then k.domains + {p.norms.lower(name.value)} else k.domains)
    case _ => k
  }

  predicate Enabled(s: State, e: Step) {
    match e
    case Begin(id, _) => id !in s.flights
    case Advance(id) => id in s.flights && !s.flights[id].at.Finished?
    case Switch => true
  }

  function Next(p: Policy, s: State, e: Step): State
    requires Enabled(s, e)
  {
    match e
    case Begin(id, j) =>
      s.(flights := s.flights[id := Flight(j, s.known.phase.Refinement?, GeoPhase, NOTHING_READ)])
    case Advance(id) =>
      State(Written(p, s.known, s.flights[id]), s.flights[id := Moved(p, s.known, s.flights[id])])
    case Switch => s.(known := s.known.(phase := Refinement))
  }

  /** The state a trace leads to from `s`, if every step of it is enabled. */
  function Exec(p: Policy, s: State, trace: seq<Step>): Option<State> {
    if trace == [] then Some(s)
    else
      var m := Exec(p, s, Init(trace));
      if m.Some? && Enabled(m.value, Last(trace)) then Some(Next(p, m.value, Last(trace))) else None
  }

  // --- What every analysis in flight can rely on -----------------------------------------------------

  predicate CountryRead(f: Flight) {
    !f.at.GeoPhase? && !f.at.CountryLookup?
  }

  predicate NameRead(f: Flight) {
    CountryRead(f) && !f.at.NameLookup?
  }

  predicate PortRead(f: Flight) {
    NameRead(f) && !f.at.PortPhase? && !f.at.PortLookup?
  }

  /**
   What a late analysis did not object to is known and stays known; a late analysis that writes has
   nothing to object to.
   */
  predicate Founded(p: Policy, k: Knowledge, f: Flight) {
    var j, name := f.job, f.job.name;
    && p.genuine(j)
    && (f.at.CountryLookup? ==> j.country.Some?)
    && (f.at.PortLookup? ==> j.tm.dstPort.Some?)
    && (f.late ==> k.phase.Refinement?)
    && (f.late && CountryRead(f) && j.country.Some? && !f.read.newCountry ==> j.country.value in k.countries)
    && (f.late && PortRead(f) && j.tm.dstPort.Some? && !f.read.newPort ==> j.tm.dstPort.value in k.ports)
    && (NameRead(f) && name.Some? && f.read.knownName ==> p.norms.lower(name.value) in k.domains)
    && (f.late && f.at.Writes() ==> p.clean(j, f.read) && Unsuspicious(p.norms, j.tm, j.name, f.read))
  }

  ghost predicate AllFounded(p: Policy, s: State) {
    forall id :: id in s.flights ==> Founded(p, s.known, s.flights[id])
  }

  predicate Grows(k: Knowledge, k': Knowledge) {
    && (k.phase.Refinement? ==> k'.phase.Refinement?)
    && k.ports <= k'.ports && k.dstIps <= k'.dstIps && k.countries <= k'.countries && k.domains <= k'.domains
  }

  lemma {:induction false} GrowthKeepsFounded(p: Policy, k: Knowledge, k': Knowledge, f: Flight)
    requires Founded(p, k, f) && Grows(k, k')
    ensures Founded(p, k', f)
  {}

  lemma {:induction false} WritesGrow(p: Policy, k: Knowledge, f: Flight)
    ensures Grows(k, Written(p, k, f)) && Written(p, k, f).phase == k.phase
  {}

  lemma {:induction false} ReadKeepsFounded(p: Policy, k: Knowledge, f: Flight)
    requires Founded(p, k, f) && !f.at.Writes() && !f.at.Decision?
    ensures Founded(p, k, Moved(p, k, f))
  {}

  lemma {:induction false} DecisionKeepsFounded(p: Policy, k: Knowledge, f: Flight)
    requires Vigilant(p)
    requires Founded(p, k, f) && f.at.Decision?
    ensures Founded(p, k, Moved(p, k, f))
  {}

  lemma {:induction false} WriteKeepsFounded(p: Policy, k: Knowledge, f: Flight)
    requires Founded(p, k, f) && f.at.Writes()
    ensures Founded(p, k, Moved(p, k, f))
  {}

  lemma {:induction false} ActKeepsFounded(p: Policy, k: Knowledge, f: Flight)
    requires Vigilant(p)
    requires Founded(p, k, f)
    ensures Founded(p, Written(p, k, f), Moved(p, k, f))
  {
    if f.at.Decision? {
      DecisionKeepsFounded(p, k, f);
    } else if f.at.Writes() {
      WriteKeepsFounded(p, k, f);
    } else {
      ReadKeepsFounded(p, k, f);
    }
    WritesGrow(p, k, f);
    GrowthKeepsFounded(p, k, Written(p, k, f), Moved(p, k, f));
  }

  predicate GenuineTrace(p: Policy, trace: seq<Step>) {
    forall i :: 0 <= i < |trace| && trace[i].Begin? ==> p.genuine(trace[i].job)
  }

  lemma {:induction false} StepKeepsFounded(p: Policy, s: State, e: Step)
    requires Vigilant(p)
    requires AllFounded(p, s) && Enabled(s, e)
    requires e.Begin? ==> p.genuine(e.job)
    ensures AllFounded(p, Next(p, s, e)) && Grows(s.known, Next(p, s, e).known)
  {
    var s' := Next(p, s, e);
    if e.Advance? {
      WritesGrow(p, s.known, s.flights[e.flight]);
      ActKeepsFounded(p, s.known, s.flights[e.flight]);
    }
    forall id | id in s'.flights
      ensures Founded(p, s'.known, s'.flights[id])
    {
      if id in s.flights && !(e.Advance? && id == e.flight) {
        GrowthKeepsFounded(p, s.known, s'.known, s.flights[id]);
      }
    }
  }

  // --- Frozen but for stragglers -----------------------------------------------------------------------

  /** An analysis that began while learning and has not finished. */
  predicate Straggler(s: State, id: Id) {
    id in s.flights && !s.flights[id].late && !s.flights[id].at.Finished?
  }

  ghost predicate CountryOwed(s: State, c: Country) {
    exists id :: Straggler(s, id) && s.flights[id].job.country == Some(c)
  }

  ghost predicate PortOwed(s: State, port: u16) {
    exists id :: Straggler(s, id) && s.flights[id].job.tm.dstPort == Some(port)
  }

  ghost predicate NameOwed(p: Policy, s: State, d: Text) {
    exists id :: Straggler(s, id) && s.flights[id].job.name.Some? && p.norms.lower(s.flights[id].job.name.value) == d
  }

  /** The analysis began in Refinement and has run to its end, its clean outcome having let it write. */
  predicate WroteLate(p: Policy, f: Flight) {
    f.late && f.at.Finished? && p.clean(f.job, f.read)
  }

  /** The query names written by the analyses begun in Refinement. */
  function LateNames(p: Policy, s: State): set<Text> {
    set id | id in s.flights && WroteLate(p, s.flights[id]) && s.flights[id].job.name.Some? ::
      s.flights[id].job.name.value
  }

  /**
   What was learned since `s` and called for vigilance is owed to an analysis that straggled in `s`; any
   other domain is the stored form of a harmless name among `names`.
   */
  ghost predicate OwedToStragglers(p: Policy, s: State, k: Knowledge, names: set<Text>) {
    && Grows(s.known, k)
    && (forall c :: c in k.countries && c !in s.known.countries ==> CountryOwed(s, c))
    && (forall port :: port in k.ports && port in p.norms.wellKnown && port !in s.known.ports ==> PortOwed(s, port))
    && (forall d :: d in k.domains && d !in s.known.domains ==> HarmlessDomain(p.norms, names, d) || NameOwed(p, s, d))
  }

  /** Nobody becomes a straggler in Refinement. */
  ghost predicate StragglersRemain(s: State, t: State) {
    forall id :: Straggler(t, id) ==> Straggler(s, id) && t.flights[id].job == s.flights[id].job
  }

  /** The name this access writes, if it writes one. */
  function NameWritten(f: Flight): set<Text> {
    if f.at.WriteName? then Insert({}, f.job.name) else {}
  }

  /** What a late analysis writes was known already, or needs no vigilance. */
  lemma {:induction false} LateWriteIsQuiet(p: Policy, k: Knowledge, f: Flight)
    requires Founded(p, k, f) && f.late
    ensures OnlyQuietlyLearned(p.norms, NameWritten(f), k, Written(p, k, f))
  {
    var name := f.job.name;
    if f.at.WriteName? && name.Some? && !f.read.knownName {
      assert name.value in NameWritten(f);
      assert HarmlessDomain(p.norms, NameWritten(f), p.norms.lower(name.value));
    }
  }

  /** An analysis writes nothing but what its own packet carries. */
  lemma {:induction false} WritesOwnPacket(p: Policy, k: Knowledge, f: Flight)
    ensures var k' := Written(p, k, f);
            && (forall c :: c in k'.countries && c !in k.countries ==> f.job.country == Some(c))
            && (forall port :: port in k'.ports && port !in k.ports ==> f.job.tm.dstPort == Some(port))
            && (forall d :: d in k'.domains && d !in k.domains ==>
                  f.job.name.Some? && p.norms.lower(f.job.name.value) == d)
  {}

  lemma {:induction false} StragglerOwes(
    p: Policy, s: State, id: Id, k: Knowledge, k': Knowledge, names: set<Text>)
    requires OwedToStragglers(p, s, k, names) && Grows(k, k') && Straggler(s, id)
    requires forall c :: c in k'.countries && c !in k.countries ==> s.flights[id].job.country == Some(c)
    requires forall port :: port in k'.ports && port !in k.ports ==> s.flights[id].job.tm.dstPort == Some(port)
    requires forall d :: d in k'.domains && d !in k.domains ==>
               s.flights[id].job.name.Some? && p.norms.lower(s.flights[id].job.name.value) == d
    ensures OwedToStragglers(p, s, k', names)
  {}

  lemma {:induction false} MoreNames(p: Policy, s: State, k: Knowledge, names: set<Text>, more: set<Text>)
    requires OwedToStragglers(p, s, k, names) && names <= more
    ensures OwedToStragglers(p, s, k, more)
  {
    forall d | d in k.domains && d !in s.known.domains
      ensures HarmlessDomain(p.norms, more, d) || NameOwed(p, s, d)
    {
      if HarmlessDomain(p.norms, names, d) {
        var name :| name in names && d == p.norms.lower(name) && p.norms.harmless(name);
        assert name in more;
      }
    }
  }

  lemma {:induction false} QuietLearningOwesNothing(
    p: Policy, s: State, k: Knowledge, k': Knowledge, own: set<Text>, names: set<Text>)
    requires OwedToStragglers(p, s, k, names) && OnlyQuietlyLearned(p.norms, own, k, k') && own <= names
    ensures OwedToStragglers(p, s, k', names)
  {
    forall port | port in k'.ports && port in p.norms.wellKnown && port !in s.known.ports
      ensures PortOwed(s, port)
    {
      assert port in k'.ports * p.norms.wellKnown;
    }
    forall d | d in k'.domains && d !in s.known.domains
      ensures HarmlessDomain(p.norms, names, d) || NameOwed(p, s, d)
    {
      if d !in k.domains {
        assert d in k'.domains - k.domains;
        var name :| name in own && d == p.norms.lower(name) && p.norms.harmless(name);
        assert name in names;
      }
    }
  }

  /**
   From any state in Refinement, under every interleaving: a country, a well-known port or a suspicious
   name learned later belongs to an analysis that had begun while learning and was unfinished. Every other
   domain is that of a harmless query name written by an analysis begun in Refinement.
   */
  lemma {:induction false} LearnedLaterIsOwedToStragglers(
    p: Policy, s: State, trace: seq<Step>)
    requires Vigilant(p)
    requires AllFounded(p, s) && s.known.phase.Refinement?
    requires GenuineTrace(p, trace) && Exec(p, s, trace).Some?
    ensures var t := Exec(p, s, trace).value;
            && AllFounded(p, t) && t.known.phase.Refinement?
            && OwedToStragglers(p, s, t.known, LateNames(p, t)) && StragglersRemain(s, t)
  {
    if trace != [] {
      var prior, e := Init(trace), Last(trace);
      assert forall i :: 0 <= i < |prior| ==> prior[i] == trace[i];
      LearnedLaterIsOwedToStragglers(p, s, prior);
      var m := Exec(p, s, prior).value;
      assert e == trace[|trace| - 1];
      StepKeepsFounded(p, m, e);
      StepOwes(p, s, m, e);
    }
  }

  /** An analysis that has run to its end stays as it is. */
  lemma {:induction false} StepKeepsLateNames(p: Policy, m: State, e: Step)
    requires Enabled(m, e)
    ensures LateNames(p, m) <= LateNames(p, Next(p, m, e))
  {
    var t := Next(p, m, e);
    forall name | name in LateNames(p, m)
      ensures name in LateNames(p, t)
    {
      var id :| id in m.flights && WroteLate(p, m.flights[id]) && m.flights[id].job.name == Some(name);
      assert id in t.flights && t.flights[id] == m.flights[id];
    }
  }

  /** A late analysis that writes its name has come out clean, and with that write has run to its end. */
  lemma {:induction false} WrittenNameIsLate(p: Policy, m: State, id: Id)
    requires id in m.flights && m.flights[id].late && !m.flights[id].at.Finished?
    requires Founded(p, m.known, m.flights[id])
    ensures NameWritten(m.flights[id]) <= LateNames(p, Next(p, m, Advance(id)))
  {
    var f, t := m.flights[id], Next(p, m, Advance(id));
    if f.at.WriteName? {
      assert id in t.flights && WroteLate(p, t.flights[id]) && t.flights[id].job == f.job;
    }
  }

  lemma {:induction false} StepOwes(p: Policy, s: State, m: State, e: Step)
    requires AllFounded(p, m) && m.known.phase.Refinement? && Enabled(m, e)
    requires OwedToStragglers(p, s, m.known, LateNames(p, m)) && StragglersRemain(s, m)
    ensures var t := Next(p, m, e);
            OwedToStragglers(p, s, t.known, LateNames(p, t)) && StragglersRemain(s, t)
  {
    var t := Next(p, m, e);
    StepKeepsLateNames(p, m, e);
    MoreNames(p, s, m.known, LateNames(p, m), LateNames(p, t));
    if e.Advance? {
      if m.flights[e.flight].late {
        WrittenNameIsLate(p, m, e.flight);
      }
      AdvanceOwes(p, s, m, e.flight, m.flights[e.flight], LateNames(p, t));
    }
  }

  lemma {:induction false} AdvanceOwes(
    p: Policy, s: State, m: State, id: Id, f: Flight, names: set<Text>)
    requires id in m.flights && f == m.flights[id] && !f.at.Finished? && Founded(p, m.known, f)
    requires OwedToStragglers(p, s, m.known, names) && StragglersRemain(s, m)
    requires f.late ==> NameWritten(f) <= names
    ensures OwedToStragglers(p, s, Written(p, m.known, f), names)
  {
    var k' := Written(p, m.known, f);
    if f.late {
      LateWriteIsQuiet(p, m.known, f);
      QuietLearningOwesNothing(p, s, m.known, k', NameWritten(f), names);
    } else {
      assert Straggler(m, id);
      WritesOwnPacket(p, m.known, f);
      WritesGrow(p, m.known, f);
      StragglerOwes(p, s, id, m.known, k', names);
    }
  }

  /**
   Once the stragglers have finished, the countries and the well-known ports never change again, and
   every domain learned is that of a harmless query name written by an analysis begun in Refinement.
   */
  lemma {:induction false} FrozenOnceStragglersFinish(p: Policy, s: State, trace: seq<Step>)
    requires Vigilant(p)
    requires AllFounded(p, s) && s.known.phase.Refinement?
    requires forall id :: !Straggler(s, id)
    requires GenuineTrace(p, trace) && Exec(p, s, trace).Some?
    ensures var t := Exec(p, s, trace).value;
            OnlyQuietlyLearned(p.norms, LateNames(p, t), s.known, t.known)
  {
    LearnedLaterIsOwedToStragglers(p, s, trace);
    var k := Exec(p, s, trace).value.known;
    assert forall c :: !CountryOwed(s, c);
    assert forall port :: !PortOwed(s, port);
    assert k.countries == s.known.countries;
    assert k.ports * p.norms.wellKnown == s.known.ports * p.norms.wellKnown;
  }

  /** Every state that can be reached from an idle engine, in either phase, is founded. */
  lemma {:induction false} EveryRunIsFounded(p: Policy, k: Knowledge, trace: seq<Step>)
    requires Vigilant(p)
    requires GenuineTrace(p, trace) && Exec(p, State(k, map[]), trace).Some?
    ensures AllFounded(p, Exec(p, State(k, map[]), trace).value)
  {
    if trace != [] {
      var prior := Init(trace);
      assert forall i :: 0 <= i < |prior| ==> prior[i] == trace[i];
      EveryRunIsFounded(p, k, prior);
      assert Last(trace) == trace[|trace| - 1];
      StepKeepsFounded(p, Exec(p, State(k, map[]), prior).value, Last(trace));
    }
  }

  // --- Without interruption ------------------------------------------------------------------------------

  function Remaining(at: Access): nat {
    match at
    case GeoPhase => 11 case CountryLookup => 10 case NameLookup => 9 case PortPhase => 8 case PortLookup => 7
    case Decision => 6 case WritePort => 5 case WriteDstIp => 4 case WriteProtocol => 3 case WriteCountry => 2
    case WriteName => 1 case Finished => 0
  }

  /** The baseline after an analysis that runs to its end with no other step in between. */
  function Alone(p: Policy, k: Knowledge, f: Flight): Knowledge
    decreases Remaining(f.at)
  {
    if f.at.Finished? then k else Alone(p, Written(p, k, f), Moved(p, k, f))
  }

  lemma {:induction false} CountryAlone(p: Policy, k: Knowledge, f: Flight, isNew: bool)
    requires f.at.GeoPhase? && !f.read.newCountry
    requires isNew == (f.job.country.Some? && k.phase.Refinement? && f.job.country.value !in k.countries)
    ensures Alone(p, k, f) == Alone(p, k, f.(at := NameLookup, read := f.read.(newCountry := isNew)))
  {
    var f1 := Moved(p, k, f);
    assert Alone(p, k, f) == Alone(p, k, f1);
    if f1.at.CountryLookup? {
      assert Alone(p, k, f1) == Alone(p, k, Moved(p, k, f1));
    }
  }

  lemma {:induction false} PortAlone(p: Policy, k: Knowledge, f: Flight, isNew: bool)
    requires f.at.PortPhase? && !f.read.newPort
    requires isNew == (f.job.tm.dstPort.Some? && k.phase.Refinement? && f.job.tm.dstPort.value !in k.ports)
    ensures Alone(p, k, f) == Alone(p, k, f.(at := Decision, read := f.read.(newPort := isNew)))
  {
    var f1 := Moved(p, k, f);
    assert Alone(p, k, f) == Alone(p, k, f1);
    if f1.at.PortLookup? {
      assert Alone(p, k, f1) == Alone(p, k, Moved(p, k, f1));
    }
  }

  lemma {:induction false} LookupsAlone(p: Policy, k: Knowledge, f: Flight, r: Reads)
    requires f.at.GeoPhase? && f.read == NOTHING_READ
    requires r == ReadsOf(p.norms.lower, k, f.job.tm, f.job.country, f.job.name)
    ensures Alone(p, k, f) == Alone(p, k, f.(at := Decision, read := r))
  {
    CountryAlone(p, k, f, r.newCountry);
    var f1 := f.(at := NameLookup, read := f.read.(newCountry := r.newCountry));
    var f2 := Moved(p, k, f1);
    assert Alone(p, k, f1) == Alone(p, k, f2);
    PortAlone(p, k, f2, r.newPort);
  }

  lemma {:induction false} WritesAlone(p: Policy, k: Knowledge, f: Flight)
    requires f.at.WritePort?
    ensures Alone(p, k, f) == Learned(p.norms.lower, k, f.job.tm, f.job.country, f.job.name)
  {
    var k1, f1 := Written(p, k, f), Moved(p, k, f);
    assert Alone(p, k, f) == Alone(p, k1, f1);
    var k2, f2 := Written(p, k1, f1), Moved(p, k1, f1);
    assert Alone(p, k1, f1) == Alone(p, k2, f2);
    var k3, f3 := Written(p, k2, f2), Moved(p, k2, f2);
    assert Alone(p, k2, f2) == Alone(p, k3, f3);
    var k4, f4 := Written(p, k3, f3), Moved(p, k3, f3);
    assert Alone(p, k3, f3) == Alone(p, k4, f4);
    assert Alone(p, k4, f4) == Written(p, k4, f4);
  }

  lemma {:induction false} DecisionAlone(p: Policy, k: Knowledge, f: Flight)
    requires f.at.Decision?
    ensures Alone(p, k, f) ==
            if k.phase.Learning? || p.clean(f.job, f.read)
            then Learned(p.norms.lower, k, f.job.tm, f.job.country, f.job.name) else k
  {
    var f1 := Moved(p, k, f);
    assert Alone(p, k, f) == Alone(p, k, f1);
    if f1.at.WritePort? {
      WritesAlone(p, k, f1);
    }
  }

  /** Lock by lock but uninterrupted, an analysis reads one state and learns all or nothing. */
  lemma {:induction false} UninterruptedIsAtomic(p: Policy, k: Knowledge, f: Flight, r: Reads)
    requires f.at.GeoPhase? && f.read == NOTHING_READ
    requires r == ReadsOf(p.norms.lower, k, f.job.tm, f.job.country, f.job.name)
    ensures Alone(p, k, f) ==
            if k.phase.Learning? || p.clean(f.job, r)
            then Learned(p.norms.lower, k, f.job.tm, f.job.country, f.job.name) else k
  {
    LookupsAlone(p, k, f, r);
    DecisionAlone(p, k, f.(at := Decision, read := r));
  }

  // --- Stragglers do learn -------------------------------------------------------------------------------

  lemma {:induction false} Extend(p: Policy, s: State, trace: seq<Step>, e: Step)
    requires Exec(p, s, trace).Some? && Enabled(Exec(p, s, trace).value, e)
    ensures Exec(p, s, trace + [e]) == Some(Next(p, Exec(p, s, trace).value, e))
  {
    assert Init(trace + [e]) == trace;
  }

  /** No analysis is begun but of `j`. */
  predicate OnlyBegins(trace: seq<Step>, j: Job) {
    trace == [] || (OnlyBegins(Init(trace), j) && (Last(trace).Begin? ==> Last(trace).job == j))
  }

  lemma {:induction false} OnlyBeginsMore(trace: seq<Step>, e: Step, j: Job)
    requires OnlyBegins(trace, j) && (e.Begin? ==> e.job == j)
    ensures OnlyBegins(trace + [e], j)
  {
    assert Init(trace + [e]) == trace;
  }

  lemma {:induction false} OnlyGenuine(p: Policy, trace: seq<Step>, j: Job)
    requires p.genuine(j) && OnlyBegins(trace, j)
    ensures GenuineTrace(p, trace)
  {
    if trace != [] {
      OnlyGenuine(p, Init(trace), j);
      forall i | 0 <= i < |trace| && trace[i].Begin?
        ensures p.genuine(trace[i].job)
      {
        if i < |trace| - 1 {
          assert trace[i] == Init(trace)[i];
        }
      }
    }
  }

  /**
   Freezing needs the stragglers gone: any packet from a new country that is clean apart from that,
   caught by the switch after its lookups, still adds the country in Refinement.
   */
  lemma {:induction false} StragglerStillLearns(p: Policy, k: Knowledge, j: Job, f: Flight)
    returns (before: seq<Step>, after: seq<Step>)
    requires k.phase.Learning? && j.country.Some? && j.country.value !in k.countries
    requires f == Flight(j, false, Decision, ReadsOf(p.norms.lower, k, j.tm, j.country, j.name)) && p.clean(j, f.read)
    ensures OnlyBegins(before, j) && OnlyBegins(after, j)
    ensures Exec(p, State(k, map[]), before) == Some(State(k.(phase := Refinement), map[0 := f]))
    ensures var t := Exec(p, State(k.(phase := Refinement), map[0 := f]), after);
            t.Some? && j.country.value in t.value.known.countries
  {
    before := CaughtBySwitch(p, k, j, f);
    after := RunsOn(p, k.(phase := Refinement), f);
  }

  lemma {:induction false} CaughtBySwitch(p: Policy, k: Knowledge, j: Job, f: Flight) returns (trace: seq<Step>)
    requires k.phase.Learning?
    requires f == Flight(j, false, Decision, ReadsOf(p.norms.lower, k, j.tm, j.country, j.name))
    ensures Exec(p, State(k, map[]), trace) == Some(State(k.(phase := Refinement), map[0 := f])) && OnlyBegins(trace, j)
  {
    var s := State(k, map[]);
    trace := Begins(p, k, j);
    trace := LooksUp(p, s, trace, k, f.(at := GeoPhase, read := NOTHING_READ), f);
    Extend(p, s, trace, Step.Switch);
    OnlyBeginsMore(trace, Step.Switch, j);
    trace := trace + [Step.Switch];
  }

  lemma {:induction false} Begins(p: Policy, k: Knowledge, j: Job) returns (trace: seq<Step>)
    requires k.phase.Learning?
    ensures Exec(p, State(k, map[]), trace) == Some(State(k, map[0 := Flight(j, false, GeoPhase, NOTHING_READ)]))
    ensures OnlyBegins(trace, j)
  {
    trace := [] + [Begin(0, j)];
    Extend(p, State(k, map[]), [], Begin(0, j));
    OnlyBeginsMore([], Begin(0, j), j);
    assert map[][0 := Flight(j, false, GeoPhase, NOTHING_READ)] == map[0 := Flight(j, false, GeoPhase, NOTHING_READ)];
  }

  lemma {:induction false} LooksUp(p: Policy, s: State, trace: seq<Step>, k: Knowledge, f0: Flight, f: Flight)
    returns (longer: seq<Step>)
    requires Exec(p, s, trace) == Some(State(k, map[0 := f0])) && k.phase.Learning? && OnlyBegins(trace, f.job)
    requires f0 == f.(at := GeoPhase, read := NOTHING_READ)
    requires f.at.Decision? && f.read == ReadsOf(p.norms.lower, k, f.job.tm, f.job.country, f.job.name)
    ensures Exec(p, s, longer) == Some(State(k, map[0 := f])) && OnlyBegins(longer, f.job)
  {
    longer := AdvanceOnly(p, s, trace, k, f0, k, f0.(at := NameLookup));
    longer := AdvanceOnly(p, s, longer, k, f0.(at := NameLookup), k, f.(at := PortPhase));
    longer := AdvanceOnly(p, s, longer, k, f.(at := PortPhase), k, f);
  }

  lemma {:induction false} AdvanceOnly(
    p: Policy, s: State, trace: seq<Step>, k: Knowledge, f: Flight, k': Knowledge, f': Flight)
    returns (longer: seq<Step>)
    requires Exec(p, s, trace) == Some(State(k, map[0 := f])) && !f.at.Finished? && OnlyBegins(trace, f.job)
    requires Written(p, k, f) == k' && Moved(p, k, f) == f'
    ensures Exec(p, s, longer) == Some(State(k', map[0 := f'])) && OnlyBegins(longer, f.job)
  {
    Extend(p, s, trace, Advance(0));
    OnlyBeginsMore(trace, Advance(0), f.job);
    assert map[0 := f][0 := f'] == map[0 := f'];
    longer := trace + [Advance(0)];
  }

  lemma {:induction false} RunsOn(p: Policy, k: Knowledge, f: Flight) returns (trace: seq<Step>)
    requires f.at.Decision? && p.clean(f.job, f.read) && f.job.country.Some?
    ensures var m := Exec(p, State(k, map[0 := f]), trace);
            m.Some? && f.job.country.value in m.value.known.countries
    ensures OnlyBegins(trace, f.job)
  {
    var s := State(k, map[0 := f]);
    trace := AdvanceOnly(p, s, [], k, f, k, f.(at := WritePort));
    trace := WritesCountry(p, s, trace, k, f.(at := WritePort));
  }

  lemma {:induction false} WriteMovesOn(p: Policy, k: Knowledge, f: Flight)
    requires f.at.Writes() && !f.at.WriteName? && f.job.country.Some?
    ensures var g := Moved(p, k, f);
            && g.job == f.job && g.at.Writes() && Remaining(g.at) < Remaining(f.at)
            && (g.at.WriteName? <==> f.at.WriteCountry?)
    ensures f.at.WriteCountry? ==> f.job.country.value in Written(p, k, f).countries
  {}

  lemma {:induction false} WritesCountry(p: Policy, s: State, trace: seq<Step>, k: Knowledge, f: Flight)
    returns (longer: seq<Step>)
    requires Exec(p, s, trace) == Some(State(k, map[0 := f])) && f.job.country.Some? && OnlyBegins(trace, f.job)
    requires f.at.Writes() && !f.at.WriteName?
    ensures var m := Exec(p, s, longer);
            m.Some? && f.job.country.value in m.value.known.countries
    ensures OnlyBegins(longer, f.job)
    decreases Remaining(f.at)
  {
    var k', f' := Written(p, k, f), Moved(p, k, f);
    WriteMovesOn(p, k, f);
    longer := AdvanceOnly(p, s, trace, k, f, k', f');
    if !f.at.WriteCountry? {
      longer := WritesCountry(p, s, longer, k', f');
    }
  }
}
