/** Whole runs of the engine: what sweeping can change, and what it cannot. */
module EngineRuns {
  import opened Types
  import opened Score
  import opened Capture
  import opened Dns
  import opened Analysis
  import opened CleanResult
  import opened EngineState
  import RL = RateLimit
  import PS = PortScan
  import SF = SynFlood

  ghost function Run(w: Setting, s: State, hs: seq<Happening>): State {
    if hs == [] then s else After(w, Run(w, s, Init(hs)), Last(hs))
  }

  predicate NotBefore(hs: seq<Happening>, now: real) {
    hs == [] || Last(hs).now <= now
  }

  predicate Chronological(hs: seq<Happening>) {
    hs == [] || (Chronological(Init(hs)) && NotBefore(Init(hs), Last(hs).now))
  }

  const NO_LOGS := Logs([], [], [])

  // --- Logs in order -----------------------------------------------------------------------------------------

  predicate InOrder(l: Logs, now: real) {
    && RL.Ordered(l.rate) && RL.NotBefore(l.rate, now)
    && PS.Chronological(l.scan) && PS.NotBefore(l.scan, now)
    && SF.Chronological(l.syn) && SF.NotBefore(l.syn, now)
  }

  lemma {:induction false} InOrderLater(l: Logs, t: real, now: real)
    requires InOrder(l, t) && t <= now
    ensures InOrder(l, now)
  {}

  lemma {:induction false} LoggedInOrder(l: Logs, pkt: RawPacket, tm: TransportMeta, now: real)
    requires InOrder(l, now)
    ensures InOrder(Logged(l, pkt, tm, now), now)
  {
    assert Init(l.rate + [RL.Seen(RatePacket(pkt, tm, now))]) == l.rate;
    var p, g := ProbeOf(tm, now), SegmentOf(tm, now);
    if p.Some? {
      assert Init(l.scan + [PS.Probed(p.value)]) == l.scan;
    }
    if g.Some? {
      assert Init(l.syn + [SF.Seen(g.value)]) == l.syn;
    }
  }

  lemma {:induction false} TickedInOrder(l: Logs, now: real)
    requires InOrder(l, now)
    ensures InOrder(Ticked(l, now), now)
  {
    assert Init(l.rate + [RL.Event.Sweep(now)]) == l.rate;
    assert Init(l.scan + [PS.Event.Sweep(now)]) == l.scan;
    assert Init(l.syn + [SF.Event.Sweep(now)]) == l.syn;
  }

  lemma {:induction false} AfterInOrder(w: Setting, s: State, h: Happening)
    requires InOrder(s.logs, h.now)
    ensures InOrder(After(w, s, h).logs, h.now)
  {
    match h {
      case Arrival(pkt, now) =>
        if pkt.transport.Some? {
          LoggedInOrder(s.logs, pkt, pkt.transport.value, now);
        }
      case Tick(now) => TickedInOrder(s.logs, now);
    }
  }

  lemma {:induction false} RunInOrder(w: Setting, s: State, hs: seq<Happening>, now: real)
    requires s.logs == NO_LOGS && Chronological(hs) && NotBefore(hs, now)
    ensures InOrder(Run(w, s, hs).logs, now)
  {
    if hs != [] {
      RunInOrder(w, s, Init(hs), Last(hs).now);
      AfterInOrder(w, Run(w, s, Init(hs)), Last(hs));
      InOrderLater(Run(w, s, hs).logs, Last(hs).now, now);
    }
  }

  // --- Alike but for sweeps --------------------------------------------------------------------------------------

  predicate LogsAlike(l: Logs, m: Logs) {
    && RL.Unswept(l.rate) == RL.Unswept(m.rate)
    && PS.Unswept(l.scan) == PS.Unswept(m.scan)
    && SF.Unswept(l.syn) == SF.Unswept(m.syn)
  }

  lemma {:induction false} TickedIsAlike(l: Logs, now: real)
    ensures LogsAlike(Ticked(l, now), l)
  {
    assert Init(l.rate + [RL.Event.Sweep(now)]) == l.rate;
    assert Init(l.scan + [PS.Event.Sweep(now)]) == l.scan;
    assert Init(l.syn + [SF.Event.Sweep(now)]) == l.syn;
  }

  lemma {:induction false} LoggedAlike(l: Logs, m: Logs, pkt: RawPacket, tm: TransportMeta, now: real)
    requires LogsAlike(l, m)
    ensures LogsAlike(Logged(l, pkt, tm, now), Logged(m, pkt, tm, now))
  {
    RateLogAlike(l.rate, m.rate, RatePacket(pkt, tm, now));
    ScanLogAlike(l.scan, m.scan, tm, now);
    SynLogAlike(l.syn, m.syn, tm, now);
  }

  lemma {:induction false} RateLogAlike(l: seq<RL.Event>, m: seq<RL.Event>, p: RL.Packet)
    requires RL.Unswept(l) == RL.Unswept(m)
    ensures RL.Unswept(l + [RL.Seen(p)]) == RL.Unswept(m + [RL.Seen(p)])
  {
    assert Init(l + [RL.Seen(p)]) == l && Init(m + [RL.Seen(p)]) == m;
  }

  lemma {:induction false} ScanLogAlike(l: seq<PS.Event>, m: seq<PS.Event>, tm: TransportMeta, now: real)
    requires PS.Unswept(l) == PS.Unswept(m)
    ensures PS.Unswept(ScanLogged(l, tm, now)) == PS.Unswept(ScanLogged(m, tm, now))
  {
    var p := ProbeOf(tm, now);
    if p.Some? {
      assert Init(l + [PS.Probed(p.value)]) == l && Init(m + [PS.Probed(p.value)]) == m;
    }
  }

  lemma {:induction false} SynLogAlike(l: seq<SF.Event>, m: seq<SF.Event>, tm: TransportMeta, now: real)
    requires SF.Unswept(l) == SF.Unswept(m)
    ensures SF.Unswept(SynLogged(l, tm, now)) == SF.Unswept(SynLogged(m, tm, now))
  {
    var g := SegmentOf(tm, now);
    if g.Some? {
      assert Init(l + [SF.Seen(g.value)]) == l && Init(m + [SF.Seen(g.value)]) == m;
    }
  }

  /** The half-open table is over its threshold once the packet is in it. */
  predicate HighAt(w: Setting, l: Logs, tm: TransportMeta, now: real) {
    var g := SegmentOf(tm, now);
    g.Some? && SF.TableIsHigh(w.synConfig, l.syn, g.value)
  }

  /** The same answers, the half-open signal apart. */
  predicate AnswersAlike(a: Answers, b: Answers) {
    a.(syn := WithoutHalfOpen(a.syn)) == b.(syn := WithoutHalfOpen(b.syn))
  }

  lemma {:induction false} RateAnswersAgree(limits: RL.Limits, l: seq<RL.Event>, m: seq<RL.Event>, p: RL.Packet)
    requires RL.Unswept(l) == RL.Unswept(m)
    ensures RateOf(limits, l, p) == RateOf(limits, m, p)
  {
    RL.UnsweptKeepsPackets(l, p.src);
    RL.UnsweptKeepsPackets(m, p.src);
  }

  lemma {:induction false} SynAnswersAgree(
    c: SF.Config, l: seq<SF.Event>, m: seq<SF.Event>, tm: TransportMeta, now: real, g: Option<SF.Segment>)
    requires c.Sane() && SF.Chronological(l) && SF.NotBefore(l, now) && SF.Chronological(m) && SF.NotBefore(m, now)
    requires SF.Unswept(l) == SF.Unswept(m) && g == SegmentOf(tm, now)
    ensures WithoutHalfOpen(SynOf(c, l, tm, now)) == WithoutHalfOpen(SynOf(c, m, tm, now))
    ensures (g.Some? ==> SF.TableIsHigh(c, l, g.value) == SF.TableIsHigh(c, m, g.value))
            ==> SynOf(c, l, tm, now) == SynOf(c, m, tm, now)
  {
    if g.Some? {
      SegmentAnswersAgree(c, l, m, g.value);
    }
  }

  /**
   Logs that differ only in their sweeps: every detector answers the next packet alike, the half-open
   signal apart, and that too if the table is high in both or in neither.
   */
  lemma {:induction false} AlikeLogsAnswerAlike(
    w: Setting, l: Logs, m: Logs, pkt: RawPacket, tm: TransportMeta, now: real)
    requires w.synConfig.Sane() && InOrder(l, now) && InOrder(m, now) && LogsAlike(l, m)
    ensures AnswersAlike(AnswersTo(w, l, pkt, tm, now), AnswersTo(w, m, pkt, tm, now))
    ensures HighAt(w, l, tm, now) == HighAt(w, m, tm, now) ==>
              AnswersTo(w, l, pkt, tm, now) == AnswersTo(w, m, pkt, tm, now)
  {
    RateAnswersAgree(w.limits, l.rate, m.rate, RatePacket(pkt, tm, now));
    SynAnswersAgree(w.synConfig, l.syn, m.syn, tm, now, SegmentOf(tm, now));
  }

  /** Alike are states that differ in their sweeps and perhaps in the phase. */
  predicate StatesAlike(s: State, t: State) {
    LogsAlike(s.logs, t.logs) && s.known.(phase := Learning) == t.known.(phase := Learning)
  }

  /** On the same footing the next packet finds the same phase, and the table high in both or in neither. */
  predicate SameFooting(w: Setting, s: State, t: State, pkt: RawPacket, now: real) {
    pkt.transport.Some? ==>
      s.known.phase == t.known.phase
      && HighAt(w, s.logs, pkt.transport.value, now) == HighAt(w, t.logs, pkt.transport.value, now)
  }

  lemma {:induction false} ArrivalAlike(w: Setting, s: State, t: State, pkt: RawPacket, now: real)
    requires w.synConfig.Sane() && InOrder(s.logs, now) && InOrder(t.logs, now)
    requires StatesAlike(s, t) && SameFooting(w, s, t, pkt, now)
    ensures ResultAt(w, s, pkt, now) == ResultAt(w, t, pkt, now)
    ensures StatesAlike(After(w, s, Arrival(pkt, now)), After(w, t, Arrival(pkt, now)))
  {
    if pkt.transport.Some? {
      var tm := pkt.transport.value;
      AlikeLogsAnswerAlike(w, s.logs, t.logs, pkt, tm, now);
      LoggedAlike(s.logs, t.logs, pkt, tm, now);
      assert s.known == t.known;
    }
  }

  lemma {:induction false} TickAlike(w: Setting, s: State, t: State, now: real)
    requires StatesAlike(s, t)
    ensures StatesAlike(After(w, s, Tick(now)), t)
  {
    TickedIsAlike(s.logs, now);
  }

  lemma {:induction false} AlikeIsSymmetric(s: State, t: State)
    requires StatesAlike(s, t)
    ensures StatesAlike(t, s)
  {}

  /** The same packets at the same times, each on the same footing, with any ticks in between. */
  ghost predicate InStep(w: Setting, s: State, hs: seq<Happening>, gs: seq<Happening>)
    decreases |hs| + |gs|
  {
    if hs != [] && Last(hs).Tick? then InStep(w, s, Init(hs), gs)
    else if gs != [] && Last(gs).Tick? then InStep(w, s, hs, Init(gs))
    else if hs == [] || gs == [] then hs == gs
    else
      && InStep(w, s, Init(hs), Init(gs)) && Last(hs) == Last(gs)
      && SameFooting(w, Run(w, s, Init(hs)), Run(w, s, Init(gs)), Last(hs).pkt, Last(hs).now)
  }

  lemma {:induction false} RunsInStepAlike(w: Setting, s: State, hs: seq<Happening>, gs: seq<Happening>)
    requires w.synConfig.Sane() && s.logs == NO_LOGS && Chronological(hs) && Chronological(gs)
    requires InStep(w, s, hs, gs)
    ensures StatesAlike(Run(w, s, hs), Run(w, s, gs))
    decreases |hs| + |gs|
  {
    if hs != [] && Last(hs).Tick? {
      RunsInStepAlike(w, s, Init(hs), gs);
      TickAlike(w, Run(w, s, Init(hs)), Run(w, s, gs), Last(hs).now);
    } else if gs != [] && Last(gs).Tick? {
      RunsInStepAlike(w, s, hs, Init(gs));
      AlikeIsSymmetric(Run(w, s, hs), Run(w, s, Init(gs)));
      TickAlike(w, Run(w, s, Init(gs)), Run(w, s, hs), Last(gs).now);
      AlikeIsSymmetric(Run(w, s, gs), Run(w, s, hs));
    } else if hs != [] {
      RunsInStepAlike(w, s, Init(hs), Init(gs));
      RunInOrder(w, s, Init(hs), Last(hs).now);
      RunInOrder(w, s, Init(gs), Last(hs).now);
      ArrivalAlike(w, Run(w, s, Init(hs)), Run(w, s, Init(gs)), Last(hs).pkt, Last(hs).now);
    }
  }

  /**
   Two runs of the engine from the same start on the same packets, swept at different times: as long as
   the phase and the half-open count being high agree at every packet, so does every result.
   */
  lemma {:induction false} EveryResultAgrees(
    w: Setting, s: State, hs: seq<Happening>, gs: seq<Happening>, pkt: RawPacket, now: real)
    requires w.synConfig.Sane() && s.logs == NO_LOGS && Chronological(hs) && Chronological(gs)
    requires InStep(w, s, hs, gs) && NotBefore(hs, now) && NotBefore(gs, now)
    requires SameFooting(w, Run(w, s, hs), Run(w, s, gs), pkt, now)
    ensures ResultAt(w, Run(w, s, hs), pkt, now) == ResultAt(w, Run(w, s, gs), pkt, now)
  {
    RunsInStepAlike(w, s, hs, gs);
    RunInOrder(w, s, hs, now);
    RunInOrder(w, s, gs, now);
    ArrivalAlike(w, Run(w, s, hs), Run(w, s, gs), pkt, now);
  }

  /**
   The half-open count cannot be left out of that: on an otherwise silent packet in Refinement it alone
   decides whether the baseline learns, and so what later packets are told.
   */
  lemma {:induction false} HalfOpenDecidesLearning(
    lib: Library, pkt: RawPacket, tm: TransportMeta, a: Answers, b: Answers, k: Knowledge, country: Option<Country>)
    requires Plausible(a) && a.syn == [] && b == a.(syn := [Signal(HalfOpenHigh, SCORE_HALF_OPEN_HIGH)])
    requires k.phase.Refinement?
    requires AllSilent(Stages(lib, pkt, tm, a, ReadsOf(lib.lower, k, tm, country, QueryName(lib, pkt, tm))))
    ensures Analyzed(lib, k, pkt, tm, a, country).1 == Learned(lib.lower, k, tm, country, QueryName(lib, pkt, tm))
    ensures Analyzed(lib, k, pkt, tm, b, country).1 == k
  {
    var r := ReadsOf(lib.lower, k, tm, country, QueryName(lib, pkt, tm));
    SilentIsClean(lib, pkt, tm, a, r);
    HighIsNotClean(lib, pkt, tm, b, r);
  }

  lemma {:induction false} SilentIsClean(lib: Library, pkt: RawPacket, tm: TransportMeta, a: Answers, r: Reads)
    requires Plausible(a) && AllSilent(Stages(lib, pkt, tm, a, r))
    ensures Conclude(Stages(lib, pkt, tm, a, r)).IsClean()
  {
    StagesArePriced(lib, pkt, tm, a, r);
    SilentStages(Stages(lib, pkt, tm, a, r));
    CleanStagesIff(Stages(lib, pkt, tm, a, r));
  }

  lemma {:induction false} HighIsNotClean(lib: Library, pkt: RawPacket, tm: TransportMeta, b: Answers, r: Reads)
    requires Plausible(b) && b.syn == [Signal(HalfOpenHigh, SCORE_HALF_OPEN_HIGH)]
    ensures !Conclude(Stages(lib, pkt, tm, b, r)).IsClean()
  {
    var stages := Stages(lib, pkt, tm, b, r);
    StagesArePriced(lib, pkt, tm, b, r);
    assert stages[4].signals == b.syn;
    LoudStageIsNotClean(stages, 4, b.syn[0]);
  }
}
