/** The concurrent steps instantiated with the engine's own analysis. */
module EngineFlights {
  import opened Types
  import opened Capture
  import opened Dns
  import opened Analysis
  import opened CleanResult
  import opened Vigilance
  import opened Flights

  /** `blocked` are the blacklisted domains. */
  function EnginePolicy(lib: Library, blocked: set<Text>): Policy {
    Policy(
      EngineNorms(lib, blocked),
      (j: Job) => Plausible(j.a) && Consults(lib, blocked, j.pkt, j.tm, j.a) && j.name == QueryName(lib, j.pkt, j.tm),
      (j: Job, r: Reads) => Conclude(Stages(lib, j.pkt, j.tm, j.a, r)).IsClean())
  }

  lemma {:induction false} CleanJobIsUnsuspicious(lib: Library, blocked: set<Text>, j: Job, r: Reads)
    requires EnginePolicy(lib, blocked).genuine(j) && EnginePolicy(lib, blocked).clean(j, r)
    ensures Unsuspicious(EngineNorms(lib, blocked), j.tm, j.name, r)
  {
    CleanMeansNothingNew(lib, blocked, j.pkt, j.tm, j.a, r);
  }

  /** The scores see to it that a clean packet is unsuspicious. */
  lemma {:induction false} EngineIsVigilant(lib: Library, blocked: set<Text>)
    ensures Vigilant(EnginePolicy(lib, blocked))
  {
    var p := EnginePolicy(lib, blocked);
    forall j, r | p.genuine(j) && p.clean(j, r)
      ensures Unsuspicious(p.norms, j.tm, j.name, r)
    {
      CleanJobIsUnsuspicious(lib, blocked, j, r);
    }
  }

  /**
   Start the engine in either phase and let analyses, any number at a time, interleave with the switch in
   any way. From any point in Refinement at which no analysis begun while learning is unfinished, the
   countries and the well-known ports never change again, and every domain learned is that of a query
   name written by an analysis begun in Refinement, unlisted and unobjectionable.
   */
  lemma {:induction false} EngineFreezes(
    lib: Library, blocked: set<Text>, k: Knowledge, before: seq<Step>, after: seq<Step>)
    requires var p := EnginePolicy(lib, blocked);
             && GenuineTrace(p, before) && GenuineTrace(p, after)
             && var s := Exec(p, State(k, map[]), before);
             && s.Some? && s.value.known.phase.Refinement? && (forall id :: !Straggler(s.value, id))
             && Exec(p, s.value, after).Some?
    ensures var p := EnginePolicy(lib, blocked);
            var s := Exec(p, State(k, map[]), before).value;
            var t := Exec(p, s, after).value;
            OnlyQuietlyLearned(EngineNorms(lib, blocked), LateNames(p, t), s.known, t.known)
  {
    var p := EnginePolicy(lib, blocked);
    var s := Exec(p, State(k, map[]), before).value;
    EngineIsVigilant(lib, blocked);
    EveryRunIsFounded(p, k, before);
    FrozenOnceStragglersFinish(p, s, after);
  }

  /** Uninterrupted, the locked steps of an analysis leave the baseline as the one-step account says. */
  lemma {:induction false} UninterruptedIsAnalyzed(
    lib: Library, blocked: set<Text>, k: Knowledge, j: Job, late: bool)
    requires EnginePolicy(lib, blocked).genuine(j)
    ensures Alone(EnginePolicy(lib, blocked), k, Flight(j, late, GeoPhase, NOTHING_READ))
         == Analyzed(lib, k, j.pkt, j.tm, j.a, j.country).1
  {
    var p := EnginePolicy(lib, blocked);
    var r := ReadsOf(lib.lower, k, j.tm, j.country, j.name);
    UninterruptedIsAtomic(p, k, Flight(j, late, GeoPhase, NOTHING_READ), r);
  }

  // --- A packet that straggles ------------------------------------------------------------------------------

  /** A bare IPv4 header of a GRE packet: no ports, no flags, no payload, nothing to object to. */
  const PLAIN_BYTES: seq<byte> := [0x45, 0, 0, 20, 0, 0, 0, 0, 64, 47, 0, 0, 10, 0, 0, 1, 10, 0, 0, 2]

  const PLAIN := TransportMeta(
    V4(10, 0, 0, 1), V4(10, 0, 0, 2), None, None, 47, None, 64, 0, 0, None, None, None, None, 20)

  /** That is what the capture makes of the bytes. */
  lemma {:induction false} PlainIsParsed()
    ensures ParseTransport(PLAIN_BYTES, RawIp) == Some(PLAIN)
  {
    assert PLAIN_BYTES[0..] == PLAIN_BYTES;
  }

  const NO_ANSWERS := Answers(None, None, None, None, [], [], None)

  function PlainJob(country: Country): Job {
    Job(RawPacket(PLAIN_BYTES, 20, false, Some(PLAIN)), PLAIN, NO_ANSWERS, Some(country), None)
  }

  lemma {:induction false} PlainStagesAreSilent(lib: Library, pkt: RawPacket)
    requires pkt.data == PLAIN_BYTES && !pkt.truncated
    ensures AllSilent(Stages(lib, pkt, PLAIN, NO_ANSWERS, NOTHING_READ))
  {}

  lemma {:induction false} PlainJobIsClean(lib: Library, blocked: set<Text>, country: Country)
    ensures EnginePolicy(lib, blocked).genuine(PlainJob(country))
    ensures EnginePolicy(lib, blocked).clean(PlainJob(country), NOTHING_READ)
  {
    var j := PlainJob(country);
    PlainStagesAreSilent(lib, j.pkt);
    var stages := Stages(lib, j.pkt, PLAIN, NO_ANSWERS, NOTHING_READ);
    SilentStages(stages);
    StagesArePriced(lib, j.pkt, PLAIN, NO_ANSWERS, NOTHING_READ);
    CleanStagesIff(stages);
  }

  /** In the engine, for every baseline still learning and every country it has not seen. */
  lemma {:induction false} EngineStragglerStillLearns(lib: Library, blocked: set<Text>, k: Knowledge, country: Country)
    requires k.phase.Learning? && country !in k.countries
    ensures PlainJob(country).pkt.transport == ParseTransport(PlainJob(country).pkt.data, RawIp)
    ensures var p := EnginePolicy(lib, blocked);
            exists s: State, before, after ::
              && GenuineTrace(p, before) && GenuineTrace(p, after)
              && Exec(p, State(k, map[]), before) == Some(s)
              && s.known == k.(phase := Refinement)
              && Exec(p, s, after).Some? && country in Exec(p, s, after).value.known.countries
  {
    var p, j := EnginePolicy(lib, blocked), PlainJob(country);
    PlainIsParsed();
    PlainJobIsClean(lib, blocked, country);
    var f := Flight(j, false, Decision, NOTHING_READ);
    var before, after := StragglerStillLearns(p, k, j, f);
    var s := State(k.(phase := Refinement), map[0 := f]);
    OnlyGenuine(p, before, j);
    OnlyGenuine(p, after, j);
    assert s.known == k.(phase := Refinement) && Exec(p, State(k, map[]), before) == Some(s);
  }
}
