/**
 The whole pipeline as one step system: capture, drop-oldest ring, analyzer, drop-on-full channel,
 batcher. Steps interleave in any order.
 */
module Pipeline {
  import opened Types
  import opened RingBuffer
  import opened Batcher

  const DRAIN_MAX := 64

  datatype Config = Config(ringCap: nat, channelCap: nat, batchSize: nat)

  /** Where the analyzer loop stands. */
  datatype Analyzer = Draining | Popping | Forwarding | Exited

  datatype System = System(
    captured: nat,               // packets numbered 0, 1, ... so far
    ring: Ring<RawPacket>,
    analyzer: Analyzer,
    held: seq<RawPacket>,        // scored, not yet forwarded
    channel: seq<RawPacket>,
    batcher: Batcher.State,
    ringLost: seq<nat>,          // dropped by a full ring
    channelLost: seq<nat>,       // dropped by a full or closed channel
    rejected: seq<nat>)          // received but not parsed into an event

  datatype Step =
    | CaptureStep(hasTransport: bool)
    | CloseStep
    | AnalyzeStep(scored: seq<RawPacket>)
    | ForwardStep
    | BatchStep(choice: Choice)

  /** Scoring writes the score and the flag and touches nothing else. */
  predicate IsScoringOf(scored: seq<RawPacket>, raws: seq<RawPacket>) {
    |scored| == |raws|
    && forall i :: 0 <= i < |raws| ==> scored[i] == raws[i].(score := scored[i].score, flag := scored[i].flag)
  }

  /** What the analyzer removes from the ring at this point of its loop. */
  function Grab(s: System): nat {
    if s.analyzer.Draining? then Min(DRAIN_MAX, |s.ring.buf|) else Min(1, |s.ring.buf|)
  }

  predicate Enabled(c: Config, s: System, e: Step) {
    match e
    case CaptureStep(_) => true
    case CloseStep => true
    case AnalyzeStep(scored) =>
      // an empty drain leads to a blocking pop, which waits for an item or for the close
      && (s.analyzer.Draining? || (s.analyzer.Popping? && (s.ring.buf != [] || s.ring.closed)))
      && IsScoringOf(scored, s.ring.buf[..Grab(s)])
    case ForwardStep => s.analyzer.Forwarding?
    case BatchStep(choice) =>
      && s.batcher.running
      && (choice.Received? ==> s.channel != [] && s.channel[0] == choice.raw)
      && (choice.ChannelClosed? ==> s.channel == [] && s.analyzer.Exited?)
  }

  function Next(c: Config, s: System, e: Step): System
    requires Enabled(c, s, e)
  {
    match e
    case CaptureStep(hasTransport) =>
      s.(captured := s.captured + 1,
         ring := Push(s.ring, RawPacket(s.captured, hasTransport, 0, 0)),
         ringLost := if |s.ring.buf| == s.ring.cap && s.ring.buf != [] then s.ringLost + [s.ring.buf[0].id]
                     else s.ringLost)
    case CloseStep => s.(ring := s.ring.(closed := true))
    case AnalyzeStep(scored) =>
      s.(ring := Take(s.ring, Grab(s)),
         held := scored,
         analyzer := if scored != [] then Forwarding
                     else if s.analyzer.Draining? then Popping
                     else Exited)
    case ForwardStep =>
      if s.held == [] then s.(analyzer := Draining)
      else if s.batcher.running && |s.channel| < c.channelCap then
        s.(channel := s.channel + [s.held[0]], held := s.held[1..])
      else s.(channelLost := s.channelLost + [s.held[0].id], held := s.held[1..])
    case BatchStep(choice) =>
      var s' := s.(batcher := Turn(s.batcher, c.batchSize, choice));
      if choice.Received? then
        s'.(channel := s.channel[1..],
            rejected := if choice.raw.hasTransport then s.rejected else s.rejected + [choice.raw.id])
      else s'
  }

  function Start(c: Config): System {
    System(0, Ring([], c.ringCap, 0, false), Draining, [], [], IDLE, [], [], [])
  }

  /** The state a trace leads to, if each of its steps is enabled where it is taken. */
  function Exec(c: Config, trace: seq<Step>): Option<System> {
    if trace == [] then Some(Start(c))
    else
      var m := Exec(c, Init(trace));
      if m.Some? && Enabled(c, m.value, Last(trace)) then Some(Next(c, m.value, Last(trace))) else None
  }

  // --- Conservation and order --------------------------------------------------------------------

  function Ids(raws: seq<RawPacket>): (r: seq<nat>)
    ensures |r| == |raws| && forall i :: 0 <= i < |r| ==> r[i] == raws[i].id
  {
    seq(|raws|, i requires 0 <= i < |raws| => raws[i].id)
  }

  function EventIds(events: seq<PacketEvent>): (r: seq<nat>)
    ensures |r| == |events| && forall i :: 0 <= i < |r| ==> r[i] == events[i].id
  {
    seq(|events|, i requires 0 <= i < |events| => events[i].id)
  }

  /** Everything still on its way or delivered, furthest along first. */
  function Emitted(b: Batcher.State): seq<PacketEvent> {
    Concat(b.sent) + b.pending
  }

  function Flow(s: System): seq<nat> {
    EventIds(Emitted(s.batcher)) + Ids(s.channel) + Ids(s.held) + Ids(s.ring.buf)
  }

  /** Everything given up, in the three ways the pipeline gives packets up. */
  function Lost(s: System): seq<nat> {
    s.ringLost + s.channelLost + s.rejected
  }

  /** Each captured packet is in exactly one place, and nothing else is anywhere. */
  ghost predicate EachOnce(lost: seq<nat>, flow: seq<nat>, captured: nat) {
    forall i: nat :: multiset(lost)[i] + multiset(flow)[i] == if i < captured then 1 else 0
  }

  predicate Bounded(c: Config, s: System) {
    && s.ring.cap == c.ringCap && |s.ring.buf| <= c.ringCap
    && |s.channel| <= c.channelCap && |s.held| <= DRAIN_MAX
    && (s.held != [] ==> s.analyzer.Forwarding?)
    && (s.batcher.running ==> |s.batcher.pending| < Max(1, c.batchSize))
    && (!s.batcher.running ==> s.batcher.pending == [])
  }

  /** The flow is in capture order, and with the lost it accounts for every captured packet once. */
  ghost predicate Accounted(lost: seq<nat>, flow: seq<nat>, captured: nat) {
    Increasing(flow) && EachOnce(lost, flow, captured)
  }

  ghost predicate Conserved(c: Config, s: System) {
    && Bounded(c, s)
    && Accounted(Lost(s), Flow(s), s.captured)
  }

  /** Taking one packet out of the flow and putting it with the lost keeps order and count. */
  lemma {:induction false} GiveUp(
    before: seq<nat>, x: nat, after: seq<nat>, lost: seq<nat>, lost': seq<nat>, captured: nat)
    requires Accounted(lost, before + [x] + after, captured)
    requires multiset(lost') == multiset(lost) + multiset{x}
    ensures Accounted(lost', before + after, captured)
  {
    var was, now := before + [x] + after, before + after;
    forall i, j | 0 <= i < j < |now|
      ensures now[i] < now[j]
    {
      var i', j' := if i < |before| then i else i + 1, if j < |before| then j else j + 1;
      assert now[i] == was[i'] && now[j] == was[j'];
    }
    assert multiset(was) == multiset(now) + multiset{x};
  }

  /** A newly captured packet joins at the end. */
  lemma {:induction false} Join(flow: seq<nat>, lost: seq<nat>, captured: nat)
    requires Accounted(lost, flow, captured)
    ensures Accounted(lost, flow + [captured], captured + 1)
  {
    forall i | 0 <= i < |flow|
      ensures flow[i] < captured
    {
      assert flow[i] in multiset(flow);
    }
  }

  /** Both at once: a full ring gives up its oldest packet and takes the new one. */
  lemma {:induction false} FullRing(
    before: seq<nat>, x: nat, after: seq<nat>, flow: seq<nat>, flow': seq<nat>,
    lost: seq<nat>, lost': seq<nat>, captured: nat)
    requires flow == before + [x] + after && flow' == before + after + [captured]
    requires Accounted(lost, flow, captured) && multiset(lost') == multiset(lost) + multiset{x}
    ensures Accounted(lost', flow', captured + 1)
  {
    GiveUp(before, x, after, lost, lost', captured);
    Join(before + after, lost', captured);
  }

  // Regrouping concatenations, once, so that the step lemmas need not.

  lemma {:induction false} Regroup(a: seq<nat>, x: nat, b: seq<nat>, c: seq<nat>, d: seq<nat>)
    ensures a + ([x] + b) + c == a + [x] + (b + c)
    ensures a + ([x] + b) + c + d == a + [x] + (b + c + d)
    ensures a + [x] + b + c + d == a + [x] + (b + c + d)
    ensures a + b + c + d == a + (b + c + d)
    ensures a + ([x] + b) == a + [x] + b
    ensures a + (b + [x]) == a + b + [x]
    ensures a + (b + [x]) + c + d == a + b + [x] + (c + d)
    ensures a + b + c == a + (b + c)
  {}

  lemma {:induction false} OneMoreLost(a: seq<nat>, b: seq<nat>, c: seq<nat>, x: nat)
    ensures multiset(a + [x] + b + c) == multiset(a + b + c) + multiset{x}
    ensures multiset(a + (b + [x]) + c) == multiset(a + b + c) + multiset{x}
    ensures multiset(a + b + (c + [x])) == multiset(a + b + c) + multiset{x}
  {}

  // What each step does to the flow and to the lost, as sequences.

  function Ahead(s: System): seq<nat> {
    EventIds(Emitted(s.batcher)) + Ids(s.channel) + Ids(s.held)
  }

  lemma {:induction false} CaptureFlow(c: Config, s: System, hasTransport: bool)
    requires c.ringCap >= 1 && Bounded(c, s)
    ensures var s' := Next(c, s, CaptureStep(hasTransport));
            var b := s.ring.buf;
            if |b| == s.ring.cap then
              && Flow(s) == Ahead(s) + [b[0].id] + Ids(b[1..])
              && Flow(s') == (Ahead(s) + Ids(b[1..])) + [s.captured]
              && multiset(Lost(s')) == multiset(Lost(s)) + multiset{b[0].id}
            else
              Flow(s') == Flow(s) + [s.captured] && Lost(s') == Lost(s)
  {
    var s' := Next(c, s, CaptureStep(hasTransport));
    var b := s.ring.buf;
    if |b| == s.ring.cap {
      assert Ids(b) == [b[0].id] + Ids(b[1..]);
      assert Ids(s'.ring.buf) == Ids(b[1..]) + [s.captured];
      Regroup(Ahead(s), b[0].id, Ids(b[1..]), [], []);
      Regroup(Ahead(s), s.captured, Ids(b[1..]), [], []);
      OneMoreLost(s.ringLost, s.channelLost, s.rejected, b[0].id);
    } else {
      assert Ids(s'.ring.buf) == Ids(b) + [s.captured];
      Regroup(Ahead(s), s.captured, Ids(b), [], []);
    }
  }

  lemma {:induction false} CaptureAccounts(c: Config, s: System, hasTransport: bool)
    requires c.ringCap >= 1 && Bounded(c, s) && Accounted(Lost(s), Flow(s), s.captured)
    ensures var s' := Next(c, s, CaptureStep(hasTransport)); Accounted(Lost(s'), Flow(s'), s.captured + 1)
  {
    var s' := Next(c, s, CaptureStep(hasTransport));
    CaptureFlow(c, s, hasTransport);
    if |s.ring.buf| == s.ring.cap {
      ShiftAccounts(Ahead(s), s.ring.buf, Flow(s), Flow(s'), Lost(s), Lost(s'), s.captured);
    } else {
      Join(Flow(s), Lost(s), s.captured);
    }
  }

  lemma {:induction false} ShiftAccounts(
    ahead: seq<nat>, b: seq<RawPacket>, flow: seq<nat>, flow': seq<nat>, lost: seq<nat>, lost': seq<nat>, captured: nat)
    requires b != [] && flow == ahead + [b[0].id] + Ids(b[1..]) && flow' == (ahead + Ids(b[1..])) + [captured]
    requires Accounted(lost, flow, captured) && multiset(lost') == multiset(lost) + multiset{b[0].id}
    ensures Accounted(lost', flow', captured + 1)
  {
    FullRing(ahead, b[0].id, Ids(b[1..]), flow, flow', lost, lost', captured);
  }

  lemma {:induction false} AnalyzeFlow(c: Config, s: System, scored: seq<RawPacket>)
    requires Bounded(c, s) && Enabled(c, s, AnalyzeStep(scored))
    ensures Flow(Next(c, s, AnalyzeStep(scored))) == Flow(s)
  {
    var s' := Next(c, s, AnalyzeStep(scored));
    assert Ids(s'.held) + Ids(s'.ring.buf) == Ids(s.ring.buf);
    assert Ids(s.held) == [];
  }

  /** A forwarded packet moves into the channel or is given up. */
  lemma {:induction false} ForwardFlow(c: Config, s: System)
    requires s.held != [] && Enabled(c, s, ForwardStep)
    ensures var s' := Next(c, s, ForwardStep);
            var before := EventIds(Emitted(s.batcher)) + Ids(s.channel);
            var x, after := s.held[0].id, Ids(s.held[1..]) + Ids(s.ring.buf);
            && Flow(s) == before + [x] + after
            && ((Flow(s') == Flow(s) && Lost(s') == Lost(s))
                || (Flow(s') == before + after && multiset(Lost(s')) == multiset(Lost(s)) + multiset{x}))
  {
    var s' := Next(c, s, ForwardStep);
    var e, x := EventIds(Emitted(s.batcher)), s.held[0].id;
    var h, r := Ids(s.held[1..]), Ids(s.ring.buf);
    assert Ids(s.held) == [x] + h;
    Regroup(e + Ids(s.channel), x, h, r, []);
    if s.batcher.running && |s.channel| < c.channelCap {
      assert Ids(s'.channel) == Ids(s.channel) + [x];
      Regroup(e, x, Ids(s.channel), h, r);
    } else {
      Regroup(e + Ids(s.channel), x, h, r, []);
      OneMoreLost(s.ringLost, s.channelLost, s.rejected, x);
    }
  }

  /**
   When a held packet is queued and when it is given up: queued, at the end of the channel, exactly if the
   batcher is still receiving and the channel has room.
   */
  lemma {:induction false} ForwardDecides(c: Config, s: System)
    requires s.held != [] && Enabled(c, s, ForwardStep)
    ensures var s' := Next(c, s, ForwardStep);
            && s'.held == s.held[1..] && s'.ring == s.ring && s'.batcher == s.batcher
            && (s.batcher.running && |s.channel| < c.channelCap ==>
                  s'.channel == s.channel + [s.held[0]] && s'.channelLost == s.channelLost)
            && (!(s.batcher.running && |s.channel| < c.channelCap) ==>
                  s'.channel == s.channel && s'.channelLost == s.channelLost + [s.held[0].id])
  {}

  lemma {:induction false} ForwardAccounts(c: Config, s: System)
    requires Conserved(c, s) && Enabled(c, s, ForwardStep)
    ensures var s' := Next(c, s, ForwardStep); Accounted(Lost(s'), Flow(s'), s'.captured)
  {
    var s' := Next(c, s, ForwardStep);
    if s.held == [] {
      assert Flow(s') == Flow(s);
    } else {
      ForwardFlow(c, s);
      var before := EventIds(Emitted(s.batcher)) + Ids(s.channel);
      var x, after := s.held[0].id, Ids(s.held[1..]) + Ids(s.ring.buf);
      if Flow(s') != Flow(s) || Lost(s') != Lost(s) {
        GiveUp(before, x, after, Lost(s), Lost(s'), s.captured);
      }
    }
  }

  lemma {:induction false} FlushEmits(b: Batcher.State)
    ensures Emitted(Flush(b)) == Emitted(b)
  {
    assert Init(b.sent + [Batch(b.seqNo, b.pending)]) == b.sent;
  }

  /** A turn of the batcher appends at most the received event to what it has emitted. */
  lemma {:induction false} TurnEmits(b: Batcher.State, batchSize: nat, choice: Choice)
    requires b.running && |b.pending| < Max(1, batchSize)
    ensures var b' := Turn(b, batchSize, choice);
            && Emitted(b') == Emitted(b) + (if choice.Received? && choice.raw.hasTransport
                                            then [ParsePacket(choice.raw).value] else [])
            && (b'.running ==> |b'.pending| < Max(1, batchSize))
            && (!b'.running ==> b'.pending == [])
  {
    FlushEmits(b);
    if choice.Received? && choice.raw.hasTransport {
      var event := ParsePacket(choice.raw).value;
      var b1 := b.(captured := b.captured + 1, pending := b.pending + [event]);
      assert Emitted(b1) == Emitted(b) + [event];
      FlushEmits(b1);
    }
  }

  /** A received packet is emitted or given up; the other turns move nothing. */
  lemma {:induction false} BatchFlow(c: Config, s: System, choice: Choice)
    requires Enabled(c, s, BatchStep(choice)) && |s.batcher.pending| < Max(1, c.batchSize)
    ensures var s' := Next(c, s, BatchStep(choice));
            if choice.Received? && !choice.raw.hasTransport then
              var before := EventIds(Emitted(s.batcher));
              var x, after := choice.raw.id, Ids(s.channel[1..]) + Ids(s.held) + Ids(s.ring.buf);
              && Flow(s) == before + [x] + after && Flow(s') == before + after
              && multiset(Lost(s')) == multiset(Lost(s)) + multiset{x}
            else
              Flow(s') == Flow(s) && Lost(s') == Lost(s)
  {
    var s' := Next(c, s, BatchStep(choice));
    TurnEmits(s.batcher, c.batchSize, choice);
    if choice.Received? {
      var e, x := EventIds(Emitted(s.batcher)), choice.raw.id;
      assert Ids(s.channel) == [x] + Ids(s.channel[1..]);
      Regroup(e, x, Ids(s.channel[1..]), Ids(s.held), Ids(s.ring.buf));
      if choice.raw.hasTransport {
        assert EventIds(Emitted(s'.batcher)) == e + [x];
      } else {
        assert Emitted(s'.batcher) == Emitted(s.batcher);
        OneMoreLost(s.ringLost, s.channelLost, s.rejected, x);
      }
    } else {
      assert Emitted(s'.batcher) == Emitted(s.batcher);
    }
  }

  lemma {:induction false} BatchAccounts(c: Config, s: System, choice: Choice)
    requires Conserved(c, s) && Enabled(c, s, BatchStep(choice))
    ensures var s' := Next(c, s, BatchStep(choice)); Accounted(Lost(s'), Flow(s'), s'.captured)
  {
    var s' := Next(c, s, BatchStep(choice));
    BatchFlow(c, s, choice);
    if choice.Received? && !choice.raw.hasTransport {
      GiveUp(EventIds(Emitted(s.batcher)), choice.raw.id, Ids(s.channel[1..]) + Ids(s.held) + Ids(s.ring.buf),
             Lost(s), Lost(s'), s.captured);
    }
  }

  lemma {:induction false} StepStaysBounded(c: Config, s: System, e: Step)
    requires c.ringCap >= 1 && Bounded(c, s) && Enabled(c, s, e)
    ensures Bounded(c, Next(c, s, e))
  {
    if e.BatchStep? {
      TurnEmits(s.batcher, c.batchSize, e.choice);
    }
  }

  lemma {:induction false} StepAccounts(c: Config, s: System, e: Step)
    requires c.ringCap >= 1 && Conserved(c, s) && Enabled(c, s, e)
    ensures var s' := Next(c, s, e); Accounted(Lost(s'), Flow(s'), s'.captured)
  {
    match e {
      case CaptureStep(hasTransport) => CaptureAccounts(c, s, hasTransport);
      case CloseStep => assert Flow(Next(c, s, e)) == Flow(s);
      case AnalyzeStep(scored) => AnalyzeFlow(c, s, scored);
      case ForwardStep => ForwardAccounts(c, s);
      case BatchStep(choice) => BatchAccounts(c, s, choice);
    }
  }

  /** Under every interleaving, each captured packet is in exactly one place and the flow keeps capture order. */
  lemma {:induction false} EveryRunConserves(c: Config, trace: seq<Step>)
    requires c.ringCap >= 1 && Exec(c, trace).Some?
    ensures Conserved(c, Exec(c, trace).value)
  {
    if trace != [] {
      EveryRunConserves(c, Init(trace));
      StepStaysBounded(c, Exec(c, Init(trace)).value, Last(trace));
      StepAccounts(c, Exec(c, Init(trace)).value, Last(trace));
    }
  }

  /** The batched events, taken in order, are an order-preserving selection of the captured packets. */
  lemma {:induction false} BatchesKeepCaptureOrder(c: Config, trace: seq<Step>)
    requires c.ringCap >= 1 && Exec(c, trace).Some?
    ensures var s := Exec(c, trace).value;
            var ids := EventIds(Concat(s.batcher.sent));
            Increasing(ids) && forall i :: 0 <= i < |ids| ==> ids[i] < s.captured
  {
    EveryRunConserves(c, trace);
    var s := Exec(c, trace).value;
    var ids := EventIds(Concat(s.batcher.sent));
    assert forall i :: 0 <= i < |ids| ==> ids[i] == Flow(s)[i];
    forall i | 0 <= i < |ids|
      ensures ids[i] < s.captured
    {
      assert ids[i] in multiset(Flow(s));
    }
  }

  /** Once the batcher has left its loop, whatever is still in the channel stays there. */
  lemma {:induction false} ExitFreezesChannel(c: Config, s: System, e: Step)
    requires !s.batcher.running && Enabled(c, s, e)
    ensures Next(c, s, e).channel == s.channel && Next(c, s, e).batcher == s.batcher
  {}

  // --- Nothing is lost without cause ---------------------------------------------------------------------

  /** A packet waiting to be forwarded finds the batcher receiving and the channel with room. */
  predicate HasRoom(c: Config, s: System) {
    s.held != [] ==> s.batcher.running && |s.channel| < c.channelCap
  }

  /** At every forward of the run there was room. */
  predicate AlwaysRoom(c: Config, trace: seq<Step>)
    requires Exec(c, trace).Some?
  {
    trace == [] ||
    (AlwaysRoom(c, Init(trace)) && (Last(trace).ForwardStep? ==> HasRoom(c, Exec(c, Init(trace)).value)))
  }

  /** At every capture of the run the ring had room. */
  predicate RingNeverFull(c: Config, trace: seq<Step>)
    requires Exec(c, trace).Some?
  {
    trace == [] ||
    (RingNeverFull(c, Init(trace))
     && (Last(trace).CaptureStep? ==> |Exec(c, Init(trace)).value.ring.buf| < c.ringCap))
  }

  lemma {:induction false} OnlyFullChannelsLose(c: Config, trace: seq<Step>)
    requires Exec(c, trace).Some? && AlwaysRoom(c, trace)
    ensures Exec(c, trace).value.channelLost == []
  {
    if trace != [] {
      OnlyFullChannelsLose(c, Init(trace));
      var s := Exec(c, Init(trace)).value;
      if Last(trace).ForwardStep? && s.held != [] {
        ForwardDecides(c, s);
      }
    }
  }

  lemma {:induction false} OnlyFullRingsLose(c: Config, trace: seq<Step>)
    requires c.ringCap >= 1 && Exec(c, trace).Some? && RingNeverFull(c, trace)
    ensures Exec(c, trace).value.ringLost == []
  {
    if trace != [] {
      OnlyFullRingsLose(c, Init(trace));
      EveryRunConserves(c, Init(trace));
    }
  }

  /** Which of the captured packets had transport metadata, in capture order. */
  function Captures(trace: seq<Step>): seq<bool> {
    if trace == [] then []
    else Captures(Init(trace)) + if Last(trace).CaptureStep? then [Last(trace).hasTransport] else []
  }

  /** The packets are those captured, with the metadata they were captured with. */
  predicate AsCaptured(raws: seq<RawPacket>, metas: seq<bool>) {
    forall i :: 0 <= i < |raws| ==> raws[i].id < |metas| && raws[i].hasTransport == metas[raws[i].id]
  }

  /** Only packets without metadata were rejected. */
  predicate RejectedBare(rejected: seq<nat>, metas: seq<bool>) {
    forall i :: 0 <= i < |rejected| ==> rejected[i] < |metas| && !metas[rejected[i]]
  }

  predicate Genuine(s: System, metas: seq<bool>) {
    && s.captured == |metas|
    && AsCaptured(s.ring.buf, metas) && AsCaptured(s.held, metas) && AsCaptured(s.channel, metas)
    && RejectedBare(s.rejected, metas)
  }

  lemma {:induction false} MoreCaptured(s: System, metas: seq<bool>, more: bool)
    requires Genuine(s, metas)
    ensures AsCaptured(s.ring.buf, metas + [more]) && AsCaptured(s.held, metas + [more])
    ensures AsCaptured(s.channel, metas + [more]) && RejectedBare(s.rejected, metas + [more])
  {}

  lemma {:induction false} StepKeepsGenuine(c: Config, s: System, e: Step, metas: seq<bool>)
    requires Genuine(s, metas) && Enabled(c, s, e)
    ensures Genuine(Next(c, s, e), metas + if e.CaptureStep? then [e.hasTransport] else [])
  {
    if e.CaptureStep? {
      MoreCaptured(s, metas, e.hasTransport);
    } else {
      assert metas + [] == metas;
      if e.AnalyzeStep? {
        AnalysisKeepsGenuine(c, s, e, metas);
      }
    }
  }

  lemma {:induction false} AnalysisKeepsGenuine(c: Config, s: System, e: Step, metas: seq<bool>)
    requires Genuine(s, metas) && Enabled(c, s, e) && e.AnalyzeStep?
    ensures Genuine(Next(c, s, e), metas)
  {}

  lemma {:induction false} EveryRunIsGenuine(c: Config, trace: seq<Step>)
    requires Exec(c, trace).Some?
    ensures Genuine(Exec(c, trace).value, Captures(trace))
  {
    if trace != [] {
      EveryRunIsGenuine(c, Init(trace));
      StepKeepsGenuine(c, Exec(c, Init(trace)).value, Last(trace), Captures(Init(trace)));
    }
  }

  /**
   If the ring never overflowed and the channel always had room, every captured packet with transport
   metadata is on its way or batched.
   */
  lemma {:induction false} NothingLostWithRoom(c: Config, trace: seq<Step>, i: nat)
    requires c.ringCap >= 1 && Exec(c, trace).Some? && AlwaysRoom(c, trace) && RingNeverFull(c, trace)
    requires i < |Captures(trace)| && Captures(trace)[i]
    ensures i in Flow(Exec(c, trace).value)
  {
    var s := Exec(c, trace).value;
    EveryRunConserves(c, trace);
    EveryRunIsGenuine(c, trace);
    OnlyFullChannelsLose(c, trace);
    OnlyFullRingsLose(c, trace);
    assert Lost(s) == s.rejected;
    assert i !in s.rejected;
    assert multiset(Lost(s))[i] + multiset(Flow(s))[i] == 1;
  }

  /** What the analyzer takes at each turn of its loop: up to 64 packets, or after an empty drain one. */
  lemma {:induction false} AnalyzerTakes(c: Config, s: System, scored: seq<RawPacket>)
    requires Enabled(c, s, AnalyzeStep(scored))
    ensures var s' := Next(c, s, AnalyzeStep(scored));
            && |s'.held| == Min(if s.analyzer.Draining? then 64 else 1, |s.ring.buf|)
            && Ids(s'.held) + Ids(s'.ring.buf) == Ids(s.ring.buf)
            && (s'.held != [] ==> s'.analyzer == Forwarding)
            && (s'.held == [] ==> s'.analyzer == if s.analyzer.Draining? then Popping else Exited)
  {}

  // --- Drain on close ----------------------------------------------------------------------------------

  predicate Closes(trace: seq<Step>) {
    exists e :: e in trace && e.CloseStep?
  }

  /** The ring is closed, and the analyzer can have left its loop, only if some step closed the ring. */
  lemma {:induction false} OnlyCloseCloses(c: Config, trace: seq<Step>)
    requires Exec(c, trace).Some?
    ensures var s := Exec(c, trace).value;
            && (s.ring.closed <==> Closes(trace))
            && (s.analyzer.Exited? ==> s.ring.closed)
  {
    if trace != [] {
      var prior, e := Init(trace), Last(trace);
      OnlyCloseCloses(c, prior);
      assert trace == prior + [e];
      assert Closes(trace) <==> Closes(prior) || e.CloseStep? by {
        assert e in trace;
      }
    }
  }

  /** A packet that was given up, or that has passed the analyzer. */
  ghost predicate PassedOn(s: System, i: nat) {
    i in Lost(s) || i in EventIds(Emitted(s.batcher)) + Ids(s.channel)
  }

  /**
   The analyzer leaves its loop only on a closed and empty ring and with nothing in hand: every packet
   captured so far has been given up or is in the channel or beyond.
   */
  lemma {:induction false} ExitLeavesNothingBehind(c: Config, trace: seq<Step>, e: Step)
    requires c.ringCap >= 1 && Exec(c, trace).Some? && Enabled(c, Exec(c, trace).value, e)
    requires var s := Exec(c, trace).value; !s.analyzer.Exited? && Next(c, s, e).analyzer.Exited?
    ensures var t := Next(c, Exec(c, trace).value, e);
            && Closes(trace) && t.ring.closed && t.ring.buf == [] && t.held == []
            && forall i: nat :: i < t.captured ==> PassedOn(t, i)
  {
    var s := Exec(c, trace).value;
    var t := Next(c, s, e);
    OnlyCloseCloses(c, trace);
    EveryRunConserves(c, trace);
    StepAccounts(c, s, e);
    assert Flow(t) == EventIds(Emitted(t.batcher)) + Ids(t.channel);
    forall i: nat | i < t.captured
      ensures PassedOn(t, i)
    {
      assert multiset(Lost(t))[i] + multiset(Flow(t))[i] == 1;
    }
  }
}
