/** The packet stream task: batching by size or by time, with sequence numbers. */
module Batcher {
  import opened Types

  /** A captured packet, reduced to what decides its way through the pipeline. */
  datatype RawPacket = RawPacket(id: nat, hasTransport: bool, score: int, flag: int)

  /** An event handed to the ingestion service; `id` stands for the fields copied from the packet. */
  datatype PacketEvent = PacketEvent(id: nat, score: int, flag: int)

  datatype Batch = Batch(seqNo: nat, events: seq<PacketEvent>)

  /** One turn of the select loop. */
  datatype Choice = Cancelled | ChannelClosed | Received(raw: RawPacket) | Tick

  datatype State = State(pending: seq<PacketEvent>, seqNo: nat, captured: nat, sent: seq<Batch>, running: bool)

  const IDLE := State([], 0, 0, [], true)

  function ParsePacket(raw: RawPacket): Option<PacketEvent> {
    if raw.hasTransport then Some(PacketEvent(raw.id, raw.score, raw.flag)) else None
  }

  function Flush(s: State): State {
    if s.pending == [] then s
    else s.(pending := [], seqNo := s.seqNo + 1, sent := s.sent + [Batch(s.seqNo, s.pending)])
  }

  function Turn(s: State, batchSize: nat, c: Choice): State {
    match c
    case Cancelled => Flush(s).(running := false)
    case ChannelClosed => Flush(s).(running := false)
    case Tick => Flush(s)
    case Received(raw) =>
      var event := ParsePacket(raw);
      if event.None? then s
      else
        var s' := s.(captured := s.captured + 1, pending := s.pending + [event.value]);
        if |s'.pending| >= batchSize then Flush(s') else s'
  }

  /** The state after a series of turns; once the loop has been left, nothing more is looked at. */
  function Feed(batchSize: nat, choices: seq<Choice>): State {
    if choices == [] then IDLE
    else
      var s := Feed(batchSize, Init(choices));
      if s.running then Turn(s, batchSize, Last(choices)) else s
  }

  method FlushPending(pending: seq<PacketEvent>, seqNo: nat, sent: seq<Batch>)
    returns (pending': seq<PacketEvent>, seqNo': nat, sent': seq<Batch>)
    ensures forall captured, running ::
              State(pending', seqNo', captured, sent', running) == Flush(State(pending, seqNo, captured, sent, running))
  {
    if pending == [] {
      return pending, seqNo, sent;
    }
    return [], seqNo + 1, sent + [Batch(seqNo, pending)];
  }

  /** The select loop, driven by a given order of ready branches. */
  method RunPacketStream(choices: seq<Choice>, batchSize: nat)
    returns (pending: seq<PacketEvent>, seqNo: nat, captured: nat, sent: seq<Batch>, running: bool)
    ensures State(pending, seqNo, captured, sent, running) == Feed(batchSize, choices)
    ensures Sound(State(pending, seqNo, captured, sent, running), batchSize, Receipts(choices))
    ensures choices != [] && Last(choices).Tick? ==> pending == [] && Concat(sent) == Parsed(Receipts(choices))
  {
    pending, seqNo, captured, sent, running := [], 0, 0, [], true;
    assert choices[..|choices|] == choices;
    var i := 0;
    while i < |choices| && running
      invariant 0 <= i <= |choices|
      invariant running ==> State(pending, seqNo, captured, sent, running) == Feed(batchSize, choices[..i])
      invariant !running ==> State(pending, seqNo, captured, sent, running) == Feed(batchSize, choices)
    {
      FeedStep(batchSize, choices, i);
      match choices[i] {
        case Cancelled =>
          pending, seqNo, sent := FlushPending(pending, seqNo, sent);
          running := false;
        case ChannelClosed =>
          pending, seqNo, sent := FlushPending(pending, seqNo, sent);
          running := false;
        case Received(raw) =>
          var event := ParsePacket(raw);
          if event.Some? {
            captured := captured + 1;
            pending := pending + [event.value];
            if |pending| >= batchSize {
              pending, seqNo, sent := FlushPending(pending, seqNo, sent);
            }
          }
        case Tick =>
          pending, seqNo, sent := FlushPending(pending, seqNo, sent);
      }
      i := i + 1;
      if !running {
        StoppedStays(batchSize, choices, i);
      }
    }
    EveryOrderIsSound(batchSize, choices);
    if choices != [] && Last(choices).Tick? {
      TickSendsAll(batchSize, choices);
    }
  }

  lemma {:induction false} FeedStep(batchSize: nat, choices: seq<Choice>, i: nat)
    requires i < |choices| && Feed(batchSize, choices[..i]).running
    ensures Feed(batchSize, choices[..i + 1]) == Turn(Feed(batchSize, choices[..i]), batchSize, choices[i])
  {
    assert Init(choices[..i + 1]) == choices[..i];
  }

  lemma {:induction false} StoppedStays(batchSize: nat, choices: seq<Choice>, n: nat)
    requires n <= |choices| && !Feed(batchSize, choices[..n]).running
    ensures Feed(batchSize, choices) == Feed(batchSize, choices[..n])
  {
    if n < |choices| {
      assert Init(choices)[..n] == choices[..n];
      StoppedStays(batchSize, Init(choices), n);
    } else {
      assert choices[..n] == choices;
    }
  }

  // --- What every order of branches keeps ----------------------------------------------------------

  predicate Stops(c: Choice) {
    c.Cancelled? || c.ChannelClosed?
  }

  predicate Stopped(choices: seq<Choice>) {
    exists c :: c in choices && Stops(c)
  }

  /** The packets received before the loop was left. */
  function Receipts(choices: seq<Choice>): seq<RawPacket> {
    if choices == [] then []
    else Receipts(Init(choices))
         + if Last(choices).Received? && !Stopped(Init(choices)) then [Last(choices).raw] else []
  }

  function Parsed(raws: seq<RawPacket>): seq<PacketEvent> {
    if raws == [] then []
    else Parsed(Init(raws))
         + var event := ParsePacket(Last(raws)); if event.Some? then [event.value] else []
  }

  function Concat(sent: seq<Batch>): seq<PacketEvent> {
    if sent == [] then [] else Concat(Init(sent)) + Last(sent).events
  }

  predicate WellNumbered(sent: seq<Batch>, batchSize: nat) {
    forall n :: 0 <= n < |sent| ==> sent[n].seqNo == n && 1 <= |sent[n].events| <= Max(1, batchSize)
  }

  /**
   Batch `n` carries sequence number `n`; every batch is non-empty and within the batch size (which
   counts as one if zero); the batches and then the pending events are exactly the parsed receipts,
   in order; the counter counts them; and nothing is pending once the loop has been left.
   */
  ghost predicate Sound(s: State, batchSize: nat, receipts: seq<RawPacket>) {
    && s.seqNo == |s.sent| && WellNumbered(s.sent, batchSize)
    && |s.pending| < Max(1, batchSize)
    && Concat(s.sent) + s.pending == Parsed(receipts)
    && s.captured == |Parsed(receipts)|
    && (!s.running ==> s.pending == [])
  }

  lemma {:induction false} FlushEmpties(s: State, batchSize: nat)
    requires s.seqNo == |s.sent| && WellNumbered(s.sent, batchSize) && |s.pending| <= Max(1, batchSize)
    ensures var f := Flush(s);
            && f.seqNo == |f.sent| && WellNumbered(f.sent, batchSize)
            && f.pending == [] && Concat(f.sent) == Concat(s.sent) + s.pending
            && f.captured == s.captured && f.running == s.running
  {
    if s.pending != [] {
      assert Init(Flush(s).sent) == s.sent;
    }
  }

  lemma {:induction false} ReceiptIsSound(s: State, batchSize: nat, raw: RawPacket, receipts: seq<RawPacket>)
    requires s.running && Sound(s, batchSize, receipts)
    ensures Sound(Turn(s, batchSize, Received(raw)), batchSize, receipts + [raw])
    ensures Turn(s, batchSize, Received(raw)).running
  {
    assert Init(receipts + [raw]) == receipts;
    var event := ParsePacket(raw);
    if event.Some? {
      var s' := s.(captured := s.captured + 1, pending := s.pending + [event.value]);
      assert Concat(s'.sent) + s'.pending == Parsed(receipts + [raw]);
      FlushEmpties(s', batchSize);
    } else {
      assert Parsed(receipts + [raw]) == Parsed(receipts);
    }
  }

  lemma {:induction false} TurnIsSound(s: State, batchSize: nat, c: Choice, receipts: seq<RawPacket>)
    requires s.running && Sound(s, batchSize, receipts)
    ensures Sound(Turn(s, batchSize, c), batchSize, if c.Received? then receipts + [c.raw] else receipts)
    ensures Turn(s, batchSize, c).running == !Stops(c)
  {
    if c.Received? {
      ReceiptIsSound(s, batchSize, c.raw, receipts);
    } else {
      FlushEmpties(s, batchSize);
    }
  }

  /** Whatever the order in which the branches of the select become ready, the batcher stays sound. */
  lemma {:induction false} EveryOrderIsSound(batchSize: nat, choices: seq<Choice>)
    ensures Sound(Feed(batchSize, choices), batchSize, Receipts(choices))
    ensures Feed(batchSize, choices).running <==> !Stopped(choices)
  {
    if choices != [] {
      EveryOrderIsSound(batchSize, Init(choices));
      var s, c := Feed(batchSize, Init(choices)), Last(choices);
      assert choices == Init(choices) + [c];
      if s.running {
        TurnIsSound(s, batchSize, c, Receipts(Init(choices)));
      }
      if !(s.running && c.Received?) {
        assert Receipts(choices) == Receipts(Init(choices));
      }
      assert Stopped(choices) <==> Stopped(Init(choices)) || Stops(c) by {
        assert c in choices;
      }
    }
  }

  // --- When batches are sent ---------------------------------------------------------------------------

  /** An event carries its packet's identity, score and flag, and only packets with transport metadata make one. */
  lemma {:induction false} EventCarries(raw: RawPacket, e: PacketEvent)
    ensures ParsePacket(raw) == Some(e) <==>
            raw.hasTransport && e.id == raw.id && e.score == raw.score && e.flag == raw.flag
  {}

  /** After a tick nothing waits: everything received so far has been sent. */
  lemma {:induction false} TickSendsAll(batchSize: nat, choices: seq<Choice>)
    requires choices != [] && Last(choices).Tick?
    ensures var s := Feed(batchSize, choices);
            s.pending == [] && Concat(s.sent) == Parsed(Receipts(choices))
  {
    var prior := Feed(batchSize, Init(choices));
    EveryOrderIsSound(batchSize, choices);
    if prior.running {
      EveryOrderIsSound(batchSize, Init(choices));
      FlushEmpties(prior, batchSize);
    }
    assert Concat(Feed(batchSize, choices).sent) + [] == Concat(Feed(batchSize, choices).sent);
  }

  /** A receipt sends nothing before the batch is full, and then sends exactly the full batch. */
  lemma {:induction false} ReceiptSendsOnlyFull(s: State, batchSize: nat, raw: RawPacket)
    requires s.running && |s.pending| < Max(1, batchSize)
    ensures var s' := Turn(s, batchSize, Received(raw));
            var pending := s.pending + (if raw.hasTransport then [ParsePacket(raw).value] else []);
            if |pending| == Max(1, batchSize) then
              s'.sent == s.sent + [Batch(s.seqNo, pending)] && s'.pending == []
            else
              s'.sent == s.sent && s'.pending == pending
  {}

  /** Over a run: a batch below the batch size was sent by a tick or on leaving the loop, by no receipt. */
  lemma {:induction false} SmallBatchesAreTimed(batchSize: nat, choices: seq<Choice>)
    requires choices != [] && Last(choices).Received?
    ensures var s, s' := Feed(batchSize, Init(choices)), Feed(batchSize, choices);
            || s'.sent == s.sent
            || (s'.sent != [] && Init(s'.sent) == s.sent && |Last(s'.sent).events| == Max(1, batchSize))
  {
    var s := Feed(batchSize, Init(choices));
    EveryOrderIsSound(batchSize, Init(choices));
    if s.running {
      ReceiptSendsOnlyFull(s, batchSize, Last(choices).raw);
    }
  }
}
