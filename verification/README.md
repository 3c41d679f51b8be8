# A verified model of the agent's intrusion-detection core

This project models the network agent's stateful detection core in Dafny and proves what it does over
whole runs: the per-source detectors and the sweeper that prunes them, the concurrent path from capture
to batch, the baseline that learns from what is scored and feeds back into the scoring, the wire
parsers, and the blacklist. `dafny verify dfyconfig.toml` checks all of it.

## How it is laid out

| file | what it models |
|---|---|
| `Types.dfy` | options, bytes and 16-bit words, addresses, TCP flags, facts about finite sets |
| `TokenBucket.dfy`, `TumblingWindow.dfy`, `RateLimit.dfy` | the rate limiter: a token bucket and one tumbling window for each source |
| `SlidingSet.dfy`, `PortScan.dfy` | horizontal and vertical scan detection |
| `SynFlood.dfy` | SYN/ACK counters, the half-open table, RST and Xmas checks |
| `RstRaces.dfy` | the RST check with other workers at the half-open table between its accesses |
| `Score.dfy` | signals, totals, severities, the sorted result |
| `RingBuffer.dfy`, `Wakeups.dfy` | the drop-oldest queue, and the same queue under its mutex and condition variable |
| `Batcher.dfy`, `Pipeline.dfy` | the packet-stream task, and capture to batch as one step system |
| `Analysis.dfy` | one analysis: its stages in order, and what they conclude |
| `FlagReason.dfy`, `CleanResult.dfy`, `Vigilance.dfy` | the reported reason; when a result is clean; what it lets the baseline learn |
| `Baseline.dfy`, `Engine.dfy` | the baseline and the engine as objects |
| `EngineState.dfy`, `EngineRuns.dfy`, `OverRate.dfy` | the engine as a state and its whole runs; one run whose reason is not that of the loudest signal |
| `Flights.dfy`, `EngineFlights.dfy` | many analyses at once, each reading and writing the baseline lock by lock |
| `Capture.dfy`, `Frames.dfy` | the header parser, and an encoder written from the standards |
| `FrameAnalysis.dfy` | from the bytes of a frame to its signals, to what the detectors are shown and to what the baseline learns |
| `Dns.dfy` | query names: extraction, the wire form, the name and payload heuristics |
| `Blacklist.dfy` | the Bloom pre-filter, CIDR masks, and checks running beside adds |

Objects that the program updates in place are classes (`RateLimiter`, `PortScanDetector`,
`SynFloodDetector`, `RingBuffer`, `Baseline`, `Blacklist`, `IdsEngine`). Each detector carries a ghost
log of the packets and sweeps it has seen; its `Valid()` ties the real maps to that log, and the lemmas
then say what a log implies. Concurrency is a step system: a state, the steps that are enabled in it,
and `Exec`, which follows a trace of steps for as long as each is enabled. A step is one critical
section.

## Main results

- The token bucket is exactly the (capacity, rate) envelope: the level at each arrival is the minimum of
  the room left on all intervals ending there, so a packet is refused if and only if admitting it would
  exceed the envelope on one of them.
- What the rate limiter and the scan detector answer cannot tell a swept run from an unswept one. For
  SYN tracking only the half-open count can, and the half-open table is characterised by its history.
  The engine's results are the same over whole runs for as long as the phase and that count being high
  agree at every packet.
- No wakeup of the ring buffer is lost, with any number of producers, consumers and closers and with
  spurious wakeups.
- From capture to batch every packet is in exactly one place, and batches keep capture order, under
  every interleaving.
- Once in Refinement and once the analyses begun while learning have finished, the learned countries and
  well-known ports never change, and every domain learned is that of a query name written by an analysis
  begun in Refinement, unlisted and with no heuristic objecting, under every interleaving.
- A result is clean if and only if it has no signal, or a single one out of seven kinds.
- Parsing inverts encoding for every well-formed frame and every encodable DNS name.
- For every well-formed frame, each signal in the engine's result is decided by named fields of the frame and
  the engine's history, and so is what each detector counts and what the baseline learns.
- With room in the ring at every capture, and room and a running batcher at every forward, no packet with
  transport metadata is ever lost, under every interleaving.
- The blacklist answers as a plain set and a set of intervals would.

## Where the code differs from its documentation

The model follows the code; each difference is stated exactly.

- The RST check removes both directions of a flow before it looks them up, so it fires on every RST that
  is not a SYN without ACK. That is for one uninterrupted call; beside other workers it does so exactly
  unless a SYN has opened the flow again between a removal and its look-up (`RstFiresUnlessReopened`).
  `RstSignalMeetsItsPurposeIff` gives the condition under which that is what
  the comment describes; `RstOnTrackedConnectionFires` is an input where it is not.
- The reported flag reason is documented as that of the highest-scoring signal. It is that of the first
  detector that answers (`FlagIsFirstDetectors`). For the engine's own stages and scores
  `FlagNamesLoudestIff` gives the exact condition, by the detector that answers first, under which the two
  coincide; `LouderDomainIsNotNamed` is a packet, an over-rate query for a listed domain, where they do not,
  and `RunHidesListedDomain` a run that ends in it.
- Learning is documented as returning a clean result. It silences two stages and nothing else
  (`PhaseChangesTwoStages`); the result is clean exactly when the other stages raise at most one signal and
  that is a faint one (`LearningIsCleanIff`). A packet from a listed source is never clean
  (`LearningStillAlerts`).
- A name the baseline knows skips one inspection only; the payload inspection repeats it. That repetition
  is why a suspicious name is never learned.
- A ring of capacity zero is unbounded, and a prefix length above 32 is not refused but wraps; both are
  stated (`BoundedIffCapacityPositive`, `OverlongPrefixWraps`).
- The fragment offset is stored in bytes, not in units of eight bytes as the field's comment says.
- Nothing in `src/main.rs` closes the ring buffer, so what is proved about closing is conditional on a
  close step.

## Modelling choices

- Time is a nondecreasing `real` in seconds, read once per call. Tokens are `real`.
- Signal scores are integers; all scores in the source are whole numbers. The SYN/ACK ratio of 5 is
  compared by cross-multiplication. Counters are unbounded.
- Records that the source stores inline in a map (`Bucket`, `SlidingSet`, `PerIpCounters`, `CidrEntry`)
  are values in a map or sequence field of their class.
- A signal is its name and score. The flag byte of TCP is a record of eight bits. The blacklist works on
  words with bitwise `And` and `Shl` defined on binary digits.
- Left arbitrary, with nothing assumed but what is said: the 16-bit address hash, the Bloom hashes,
  lossy decoding, lowercasing, whether a label's entropy is high, the signature scanner (its signals score
  from 35 to 70, as its table has it), and the country lookup.
- `Flights.dfy` is stated for any `Policy` in which a clean outcome leaves no cause for suspicion;
  `EngineFlights.dfy` proves that the engine's scoring is such a policy.

## Model

| member | source | states |
|---|---|---|
| `TokenBucket.LevelIsMinimumOfEnvelopes` | src/ids/rate_limit.rs:37-49 | the tokens at an arrival, after the refill, are the minimum over all earlier-or-equal arrivals of capacity + rate * elapsed - admitted since |
| `TokenBucket.RefusedIffEnvelopeBroken` | src/ids/rate_limit.rs:37-49 | a packet is refused if and only if admitting it would exceed capacity + rate * length on some interval ending now |
| `TokenBucket.NoIntervalExceedsEnvelope` | src/ids/rate_limit.rs:37-49 | no interval ever admits more than capacity + rate * length packets |
| `TumblingWindow.WindowIsRecent` | src/ids/rate_limit.rs:85-95 | the counters hold exactly what arrived since the window opened, less than one span ago |
| `TumblingWindow.OpenedAfresh` | src/ids/rate_limit.rs:85-90 | at most one window opens inside a stretch shorter than the span |
| `TumblingWindow.HalfIsSeen` | src/ids/rate_limit.rs:85-95 | in any stretch shorter than the span some contributing arrival sees at least half of what the stretch carries |
| `RateLimit.RateLimiter.constructor` | src/ids/rate_limit.rs:67-76 | the limits the agent runs with: they leave a bucket time to refill before it can be evicted |
| `RateLimit.RateLimiter.Inspect` | src/ids/rate_limit.rs:79-130 | the answer is a function of the source's own packets alone, whatever was evicted in between |
| `RateLimit.RateLimiter.Sweep` | src/ids/rate_limit.rs:133-136 | a sweep evicts exactly the buckets idle for the eviction age, and leaves every source's packet history, and so every later answer, as it was |
| `RateLimit.BucketsAreKeptSources` | src/ids/rate_limit.rs:133-136 | after any run a bucket is held for exactly the sources whose latest packet no sweep found 120 s old, and carries that packet's time |
| `RateLimit.Consume` | src/ids/rate_limit.rs:37-49 | the charge is made exactly when the refilled level is at least one token; the counters are not touched |
| `RateLimit.CountInWindow` | src/ids/rate_limit.rs:85-95 | the byte and SYN counters move as one tumbling window; the tokens are not touched |
| `RateLimit.LapsedBucketIsFresh` | src/ids/rate_limit.rs:133-136 | a bucket old enough to evict answers the next packet as a new one does |
| `RateLimit.RunAgreesWithReplay` | src/ids/rate_limit.rs:79-136 | after any run the map holds, for each source, its never-evicted bucket or nothing if that one has lapsed |
| `RateLimit.SweepingIsUnobservable` | src/ids/rate_limit.rs:133-136 | runs that differ only in their sweeps answer the next packet alike, for any limits with eviction age at least the window and the refill time |
| `RateLimit.PacketSignalIffEnvelopeBroken` | src/ids/rate_limit.rs:97-105 | the packet signal fires if and only if the source would exceed its envelope |
| `RateLimit.WindowSignalsIff` | src/ids/rate_limit.rs:99-127 | the order of the limits: bytes are judged only within the packet rate, connections only within both and on a SYN, each exactly by what was sent since the window opened |
| `RateLimit.WindowSignalsAreSound` | src/ids/rate_limit.rs:107-127 | a byte or connection signal means that limit was passed within less than one window ending now |
| `RateLimit.WindowSignalsAreTwoComplete` | src/ids/rate_limit.rs:79-130 | a stretch shorter than one window carrying more than twice a limit raises a signal on one of its packets |
| `SlidingSet.EntriesAreLatches` | src/ids/port_scan.rs:25-33 | the entries are distinct values, each with the time its latch, defined value by value, was set |
| `SlidingSet.LatchIsGenuine` | src/ids/port_scan.rs:25-33 | a stored time is that of a real observation of the value |
| `SlidingSet.CountIsSandwiched` | src/ids/port_scan.rs:25-33 | the count is at most the distinct values of the last window and at least those not seen in the window before |
| `SlidingSet.RetainAbsorbs` | src/ids/port_scan.rs:27-28 | an earlier eviction makes no difference to a later one |
| `PortScan.PortScanDetector.Inspect` | src/ids/port_scan.rs:67-115 | the answer is that of a detector shown the same probes and never swept |
| `PortScan.PortScanDetector.Sweep` | src/ids/port_scan.rs:118-128 | a sweep leaves exactly the entries younger than the window and no empty list, and the unswept history as it was |
| `PortScan.SweepingIsUnobservable` | src/ids/port_scan.rs:118-128 | runs that differ only in their sweeps answer the next probe alike |
| `PortScan.HorizontalAlert` | src/ids/port_scan.rs:67-88 | an alert implies the threshold of distinct ports within the window; that many ports new to both windows imply an alert |
| `PortScan.VerticalEntriesAreGenuine` | src/ids/port_scan.rs:90-99 | every vertical entry is the hash of a source that probed the port at that time |
| `PortScan.VerticalAlertIsSound` | src/ids/port_scan.rs:101-112 | a vertical alert never counts more sources than really probed the port in the window, for any hash |
| `PortScan.VerticalAlert` | src/ids/port_scan.rs:90-112 | of the hashes that got past the horizontal check: an alert implies the threshold of distinct ones within the window, and that many new to both windows imply an alert |
| `SynFlood.SynFloodDetector.Inspect` | src/ids/syn_flood.rs:78-163 | the signals are those its log of segments and sweeps implies, spelt out signal by signal in the rows below, and the log grows by the segment |
| `SynFlood.SynFloodDetector.CountSegment` | src/ids/syn_flood.rs:94-105 | one source's SYN and ACK counters move as a tumbling window, no other source's do |
| `SynFlood.SynFloodDetector.TrackFlow` | src/ids/syn_flood.rs:121-131 | a SYN enters the half-open table; a completing or resetting segment removes both directions |
| `SynFlood.SynFloodDetector.Sweep` | src/ids/syn_flood.rs:166-172 | exactly the half-open entries of 30 s and the counters of 100 s go, and the table and the counters are those of the log with the sweep added |
| `SynFlood.HalfOpenIsItsHistory` | src/ids/syn_flood.rs:121-131 | after any run the table maps a flow to t if and only if its last SYN was at t, nothing settled it since, and no sweep ran at t + 30 s or later |
| `SynFlood.HalfOpenSignalIff` | src/ids/syn_flood.rs:133-140 | the half-open signal is raised if and only if, the segment at hand counted, the flows opened and since then neither settled nor expired are at least the threshold |
| `SynFlood.XmasSignalIff` | src/ids/syn_flood.rs:154-160 | the Xmas signal is raised if and only if FIN, PSH and URG are set and every other flag is clear |
| `SynFlood.EachSignalOnce` | src/ids/syn_flood.rs:86-163 | signals come in the order flood, half-open, RST, Xmas, none of them twice |
| `SynFlood.FloodSignalFollowsSegments` | src/ids/syn_flood.rs:94-118 | the flood signal fires if and only if, since a window opened less than 10 s ago, the source sent 50 segments with SYN and no ACK, and five times as many as segments with ACK |
| `SynFlood.RstSignalIgnoresTable` | src/ids/syn_flood.rs:142-152 | in an uninterrupted call the RST signal fires exactly on a RST that is not a SYN without ACK |
| `RstRaces.RstFiresUnlessReopened` | src/ids/syn_flood.rs:125-151 | with other workers at the table between its accesses, a finished check has fired if and only if neither direction had been opened again, after its removal, when it was looked up |
| `RstRaces.UndisturbedRstFires` | src/ids/syn_flood.rs:125-151 | a RST whose flow no SYN opens during the check is never kept quiet |
| `RstRaces.ReopeningSilences` | src/ids/syn_flood.rs:145 | a SYN just before either look-up does keep it quiet |
| `SynFlood.RstSignalMeetsItsPurposeIff` | src/ids/syn_flood.rs:125-151 | the exact condition under which it fires as its comment says, on a RST with no tracked SYN |
| `SynFlood.RstOnTrackedConnectionFires` | src/ids/syn_flood.rs:125-151 | a RST answering a tracked SYN is reported all the same |
| `SynFlood.SweepingShowsOnlyInHalfOpen` | src/ids/syn_flood.rs:166-172 | runs that differ only in their sweeps raise the same flood, RST and Xmas signals |
| `SynFlood.SweepingOnlyForgets` | src/ids/syn_flood.rs:166-168 | what a swept table holds, the unswept one holds unchanged |
| `Score.ResultIsSorted` | src/ids/score.rs:94-100 | the list in the result is the stable descending permutation of the signals it was made from |
| `Score.TotalInNumbers` | src/ids/score.rs:85-93 | the total is the sum, 10 more from two signals on, and at most 100 |
| `Score.SeverityBands` | src/ids/score.rs:48-60 | Critical from 95, Alert from 85, Warning from 60, Info below; clean below 30 |
| `Score.MoreSignalsNeverScoreLess` | src/ids/score.rs:85-106 | more signals never lower total or severity and never make a non-clean result clean; totals lie in 0 to 100 |
| `Score.TotalIsOrderFree` | src/ids/score.rs:85-101 | total and severity depend only on the multiset of scores |
| `Score.LoudSignalIsNotClean` | src/ids/score.rs:104-106 | one signal at the threshold makes the result non-clean |
| `RingBuffer.RingBuffer.PushItem` | src/ring_buffer.rs:48-60 | the whole new state of a push, and the returned drop count |
| `RingBuffer.RingBuffer.PopOrWait` | src/ring_buffer.rs:63-76 | one pass under the lock takes the oldest item, or ends if closed, or must wait |
| `RingBuffer.RingBuffer.DrainBatch` | src/ring_buffer.rs:86-91 | the oldest items, up to the maximum, in order; the rest stays |
| `RingBuffer.RingBuffer.Close` | src/ring_buffer.rs:95-99 | closing changes nothing but the flag |
| `RingBuffer.EveryRunBalances` | src/ring_buffer.rs:48-91 | over every run: within capacity, a contiguous suffix of the pushes, pushed = taken + dropped + buffered, and a drop exactly when capacity later pushes have followed |
| `RingBuffer.HandedAreTaken` | src/ring_buffer.rs:62-91 | the items handed out over a run are, in order, the pushed items the ledger has as taken |
| `RingBuffer.TakenThenBufferedInPushOrder` | src/ring_buffer.rs:48-91 | the items handed out and then those buffered are an order-preserving selection of the items pushed |
| `RingBuffer.ZeroCapacityKeepsAll` | src/ring_buffer.rs:52-57 | a ring of capacity zero keeps every push |
| `RingBuffer.BoundedIffCapacityPositive` | src/ring_buffer.rs:52-57 | the bound holds over all runs if and only if the capacity is at least one |
| `Wakeups.EveryStepKeepsWakeups` | src/ring_buffer.rs:48-99 | every critical section, wakeup and notification keeps: while someone is parked, woken consumers are at least as many as items, and closed means a notify_all is to come |
| `Wakeups.NoWakeupIsEverLost` | src/ring_buffer.rs:48-99 | the same in every reachable state |
| `Wakeups.SleepersHaveNothingToDo` | src/ring_buffer.rs:63-76 | with no woken consumer and no pending close, a parked consumer means an empty open buffer |
| `Wakeups.ParkedBesideItemMeansTakerComing` | src/ring_buffer.rs:57-58 | a parked consumer beside a buffered item means another has been woken for it |
| `Wakeups.ClosedNeverParks` | src/ring_buffer.rs:71-74 | nobody parks on a closed buffer |
| `Wakeups.CloseReleasesEveryone` | src/ring_buffer.rs:95-99 | once a close has notified, nobody is parked |
| `Wakeups.PopOutcome` | src/ring_buffer.rs:63-76 | a consumer's turn at the lock ends with the oldest item, or on an empty buffer with leaving if it is closed and parking if it is open |
| `Wakeups.PopReturnsWithReason` | src/ring_buffer.rs:63-76 | no consumer returns from the blocking pop but with an item or from a closed buffer |
| `Batcher.RunPacketStream` | src/grpc_client.rs:200-261 | the select loop, for any order of ready branches, ends in a sound state, and with nothing pending if it ends in a tick |
| `Batcher.FlushPending` | src/grpc_client.rs:205-228 | an empty flush does nothing; another sends everything pending under the next number |
| `Batcher.TurnIsSound` | src/grpc_client.rs:230-261 | each branch of the select keeps the batcher sound |
| `Batcher.EveryOrderIsSound` | src/grpc_client.rs:200-261 | batch n has number n and 1 to max(1, batch_size) events; batches then pending are the parsed receipts in order; `captured` counts them; nothing is pending on exit |
| `Batcher.TickSendsAll` | src/grpc_client.rs:257-259 | for every order of branches that ends in a tick, what has been sent is all that was received and parsed |
| `Batcher.SmallBatchesAreTimed` | src/grpc_client.rs:246-256 | a receipt sends nothing, or one batch of exactly max(1, batch_size) events; smaller batches come from ticks and exits alone |
| `Pipeline.EveryRunConserves` | src/analyzer.rs:27-67 | under every interleaving each captured packet is in exactly one place and the flow is in capture order |
| `Pipeline.BatchesKeepCaptureOrder` | src/grpc_client.rs:238-256 | the batched events are an order-preserving selection of the captured packets |
| `Pipeline.ForwardDecides` | src/analyzer.rs:63-67 | a forwarded packet enters the channel exactly when the batcher still receives and the channel has room, and is given up otherwise |
| `Pipeline.OnlyFullChannelsLose` | src/analyzer.rs:63-67 | a run in which every forward found a receiving batcher and room gives nothing up at the channel |
| `Pipeline.OnlyFullRingsLose` | src/ring_buffer.rs:48-60 | a run in which every capture found room in the ring drops nothing there |
| `Pipeline.NothingLostWithRoom` | src/analyzer.rs:27-67 | in a run with room at both places every captured packet with transport metadata is on its way or batched |
| `Pipeline.EveryRunIsGenuine` | src/grpc_client.rs:62-105 | every packet on its way has the metadata it was captured with, and only packets without any are rejected |
| `Pipeline.AnalyzerTakes` | src/analyzer.rs:27-60 | the analyzer takes up to 64 packets, or a single one after an empty drain, oldest first, and leaves only on an empty turn after that |
| `Pipeline.ExitFreezesChannel` | src/grpc_client.rs:232-243 | what is in the channel when the batcher leaves its loop stays there |
| `Pipeline.OnlyCloseCloses` | src/ring_buffer.rs:95-99 | the ring is closed if and only if some step closed it, and without that the analyzer never leaves its loop |
| `Pipeline.ExitLeavesNothingBehind` | src/analyzer.rs:30-37 | the analyzer leaves on a closed and empty ring with nothing in hand, so every packet captured by then is lost or further along |
| `FlagReason.FlagIsFirstDetectors` | src/ids/mod.rs:86-232 | the reported reason is 0 if no detector with a reason answers, else that of the first one that does |
| `FlagReason.FlagNamesLoudestIff` | src/ids/score.rs:77 | for every packet and all answers, the documented meaning holds if and only if the detector that answers first is one that no other outscores, told case by case from which detectors answer, no answer included |
| `FlagReason.LouderDomainIsNotNamed` | src/ids/mod.rs:98-104 | a concrete captured DNS query, its bytes parsing to its metadata, that is over-rate and for a listed domain is reported as over-rate, the domain scoring twice as much |
| `OverRate.RunHidesListedDomain` | src/ids/mod.rs:73-213 | with the agent's own limits, a thousand such queries at one moment bring the engine there |
| `CleanResult.CleanIff` | src/ids/score.rs:85-106 | a result is clean if and only if it has no signal, or a single one of the kinds that score below the threshold |
| `Vigilance.CleanMeansNothingNew` | src/ids/mod.rs:263-264 | a clean result means a known country, a known well-known port, an unlisted and quiet or known name |
| `CleanResult.LoudNameIsNotClean` | src/ids/mod.rs:215-231 | a name signal raised by both inspections makes the packet non-clean |
| `CleanResult.PhaseChangesTwoStages` | src/ids/mod.rs:166-249 | the phase decides the new-country and the unusual-port signal and nothing else |
| `CleanResult.LearningIsCleanIff` | src/ids/mod.rs:71-73 | while learning, the result is clean if and only if the other stages raise at most one signal in all, a RST, ICMP, fragment, truncation or VLAN signal or the suspicious ending of a known name |
| `CleanResult.LearningStillAlerts` | src/ids/mod.rs:86-90 | a listed source is never clean, in either phase |
| `Vigilance.AnalysisLearnsQuietly` | src/ids/mod.rs:262-278 | in Refinement one analysis adds no country and no well-known port, and no domain but its own query name, if that is unlisted and raises nothing |
| `Vigilance.RefinementLearnsQuietly` | src/ids/mod.rs:262-278 | the same over any run of analyses and sweeper ticks, one at a time, each added domain being that of a query name of the run |
| `Baseline.Baseline.constructor` | src/ids/baseline.rs:74-93 | a snapshot that had finished learning resumes in Refinement, anything else learns |
| `Baseline.Baseline.FinishLearning` | src/ids/baseline.rs:104-116 | the phase moves forward only, nothing learned is touched, and a restart from what is persisted resumes in Refinement unless the clock read 0 |
| `Baseline.Baseline.TickPhase` | src/ids/baseline.rs:119-125 | the switch happens exactly when the learning time has passed |
| `Baseline.Baseline.Observe` | src/ids/mod.rs:266-278 | what one packet adds to each set |
| `Vigilance.ShareCountsOwnPackets` | src/ids/baseline.rs:153-157 | after any observations a protocol's distance to share 1 has shrunk by one factor for each of its own packets; other protocols have no part in it |
| `Vigilance.ShareStaysInUnit` | src/ids/baseline.rs:153-157 | a share stays in the unit interval and never falls |
| `Baseline.Baseline.IsKnownDns` | src/ids/baseline.rs:145-182 | a name is known if and only if it was loaded or some observed name equals it up to case |
| `Engine.Push` | src/ids/mod.rs:120-128 | signals are appended in order and the reason is set only if none was set |
| `Engine.IdsEngine.constructor` | src/ids/mod.rs:58-69 | a fresh engine is valid over a loaded baseline and blacklist |
| `Engine.IdsEngine.AskBlacklist` | src/ids/mod.rs:86-96 | both addresses, each against the exact set and the prefixes |
| `Engine.IdsEngine.AskCounters` | src/ids/mod.rs:98-129 | the per-source detectors answer as their logs say, and each log grows by the packet if it concerns that detector |
| `Engine.IdsEngine.AskNames` | src/ids/mod.rs:206-232 | the domain lookup, the name heuristics unless the name is known, and the payload heuristics |
| `Engine.IdsEngine.Finish` | src/ids/mod.rs:166-290 | the result is the conclusion of all stages in source order, and the baseline what that result lets it become |
| `Engine.IdsEngine.AnalyzeTransport` | src/ids/mod.rs:81-290 | the whole of it for a packet with metadata, with the logs it leaves |
| `Engine.IdsEngine.Update` | src/ids/mod.rs:262-278 | the baseline learns from every packet while learning, later only from clean ones |
| `Engine.IdsEngine.Analyze` | src/ids/mod.rs:73-291 | the result and the whole state after one packet, logs and baseline, as functions of the state before; the result lists exactly the signals raised, loudest first; in Refinement no country, no well-known port and no name but the packet's own harmless one is learned |
| `Engine.IdsEngine.SweeperTick` | src/ids/mod.rs:318-326 | the whole state after a tick; no later rate or scan answer changes, and no later flood, RST or Xmas signal |
| `EngineState.TickKeepsAnswers` | src/ids/mod.rs:318-322 | the same of the logs alone |
| `EngineState.ResultIsArranged` | src/ids/score.rs:85-101 | for every packet and state, the result lists exactly the signals the stages raise, stably by descending score, and totals them |
| `FrameAnalysis.StagesRaiseTheirOwn` | src/ids/mod.rs:86-260 | each detector raises its own signals only, at its own place in the order, and gives its own reason |
| `FrameAnalysis.FrameHeadersDecide` | src/ids/mod.rs:131-164 | for every well-formed frame: a fragment signal if and only if the IPv4 offset is positive or the more-fragments bit set; ICMP if and only if IPv4 ICMP of type 30 or more; VLAN if and only if tagged 0 or 4095; truncated if and only if the capture was |
| `FrameAnalysis.FrameMeetsBaseline` | src/ids/mod.rs:166-249 | a new country scores 35, a new well-known port 30 and any other new port 20, in Refinement only and exactly then |
| `FrameAnalysis.FrameNameDecides` | src/ids/mod.rs:206-232 | a query name is read from UDP from or to port 53 with a payload only; exactly a listed one scores 80, exactly a large response to one 50 |
| `FrameAnalysis.FrameNameIsJudgedTwice` | src/ids/mod.rs:215-231 | every complaint about a query name is in the result twice, or once if the baseline knows the name |
| `FrameAnalysis.FrameEndsDecide` | src/ids/mod.rs:86-96 | an address signal if and only if the octets of either end make an added word, a prefix signal if and only if either end, not being exact, shares an added prefix |
| `FrameAnalysis.FramePayloadDecides` | src/ids/mod.rs:186-199 | a signature signal if and only if the scanner finds it in a non-empty payload |
| `FrameAnalysis.FrameIsCounted` | src/ids/mod.rs:81-123 | each frame is one packet of its source with its wire length, a SYN if it is TCP with SYN and no ACK; TCP and UDP are probes of their destination port; TCP is a segment |
| `FrameAnalysis.FrameRateDecides` | src/ids/mod.rs:98-104 | a rate signal if and only if it is the limiter's answer about the source's own packets |
| `FrameAnalysis.FrameScanDecides` | src/ids/mod.rs:106-114 | a scan signal if and only if it is the answer about the probe |
| `FrameAnalysis.FrameFloodDecides` | src/ids/mod.rs:116-129 | a flood, half-open, RST or Xmas signal if and only if the frame is TCP and its segment raises it |
| `FrameAnalysis.FrameTeaches` | src/ids/mod.rs:262-278 | while learning, and otherwise exactly if the total is below 30, each learned set grows by exactly what the frame carries and the protocol's share moves a thousandth of the way to 1; else nothing changes |
| `EngineRuns.AlikeLogsAnswerAlike` | src/ids/mod.rs:98-129 | logs that differ only in their sweeps give every packet the same answers, the half-open signal apart, and that too if the table is high in both or neither |
| `EngineRuns.EveryResultAgrees` | src/ids/mod.rs:73-326 | two runs of the engine on the same packets, swept at different times, give every packet the same result while phase and half-open count being high agree at each packet |
| `EngineRuns.HalfOpenDecidesLearning` | src/ids/mod.rs:262-278 | that proviso is needed: on an otherwise silent packet the half-open signal alone decides whether the baseline learns |
| `Flights.StepKeepsFounded` | src/ids/mod.rs:166-278 | every lock-sized step keeps: what a late analysis did not object to is known, and one that writes had nothing to object to |
| `Flights.LearnedLaterIsOwedToStragglers` | src/ids/mod.rs:235-278 | from any state in Refinement, under every interleaving, a country, well-known port or suspicious name learned later belongs to an analysis begun while learning; any other domain is a harmless query name that an analysis begun in Refinement has written |
| `Flights.FrozenOnceStragglersFinish` | src/ids/mod.rs:235-278 | once those have finished, countries and well-known ports never change again, and every domain learned is a harmless query name that an analysis begun in Refinement has written |
| `Flights.EveryRunIsFounded` | src/ids/baseline.rs:104-137 | every state reachable from an idle engine satisfies the invariant |
| `Flights.UninterruptedIsAtomic` | src/ids/mod.rs:166-278 | the lock-sized steps of one analysis, uninterrupted, read one state and learn all or nothing |
| `Flights.StragglerStillLearns` | src/ids/mod.rs:264-274 | an otherwise clean packet from a new country, caught by the switch after its lookups, adds the country in Refinement |
| `EngineFlights.EngineIsVigilant` | src/ids/mod.rs:263-264 | the engine's scores make every clean packet unsuspicious |
| `EngineFlights.EngineFreezes` | src/ids/mod.rs:166-278 | the same for the engine itself, from any start and under every interleaving, harmless meaning unlisted and raising no name signal |
| `EngineFlights.EngineStragglerStillLearns` | src/ids/mod.rs:264-274 | for a concrete captured packet, its bytes parsing to its metadata, the engine's straggler does add its country in Refinement |
| `EngineFlights.UninterruptedIsAnalyzed` | src/ids/mod.rs:73-291 | the concurrent account of one analysis, uninterrupted, agrees with the one-step account |
| `Capture.Parse` | src/capture.rs:124-168 | the offset walk over the link layer computes the parse function; no index is out of range for any input |
| `Capture.LongerCaptureAgrees` | src/capture.rs:124-313 | appending bytes never takes a parse back, keeps link and network layer, and changes nothing once ports or ICMP fields were read |
| `Capture.UnknownLinkIsNotParsed` | src/capture.rs:155-158 | no packet of another link type is parsed |
| `Capture.OtherEtherTypesAreNotParsed` | src/capture.rs:128-154 | nor an Ethernet frame that is too short or carries neither IPv4 nor IPv6, behind a tag or not |
| `Capture.IpIsParsedIff` | src/capture.rs:163-313 | behind the link layer, parsed if and only if version 4 with a header length of 20 or more that is there, or version 6 with 40 bytes |
| `Capture.SegmentFieldsIff` | src/capture.rs:196-226 | ports exactly from 20 bytes of TCP or 8 of UDP, flags exactly from TCP, ICMP fields exactly from 4 bytes of ICMP |
| `Frames.TransportRoundTrip` | src/capture.rs:196-226 | parsing encoded TCP, UDP or ICMP returns its fields and the header length |
| `Frames.Ipv4RoundTrip` | src/capture.rs:170-244 | parsing an encoded IPv4 header with options (section 3.1 of RFC 791) returns every field |
| `Frames.Ipv6RoundTrip` | src/capture.rs:246-313 | parsing an encoded IPv6 header (section 3 of RFC 8200) returns every field |
| `Frames.LinkRoundTrip` | src/capture.rs:128-158 | parsing an encoded Ethernet header, tagged or not, finds the IP header, the address and the VLAN |
| `Frames.RoundTrip` | src/capture.rs:124-313 | parsing any well-formed encoded frame returns every field, and the payload starts where the result says |
| `Dns.ExtractQueryName` | src/ids/dns.rs:144-181 | the label walk ends for every payload and computes the specified name |
| `Dns.WireIsRead` | src/ids/dns.rs:154-175 | reading the wire form of some labels gives the labels |
| `Dns.ReadIsWire` | src/ids/dns.rs:154-175 | whatever is read stood there in wire form, properly ended |
| `Dns.SplitInvertsJoin` | src/ids/dns.rs:77 | splitting a joined name gives its labels back |
| `Dns.NameRoundTrip` | src/ids/dns.rs:144-181 | a name in the wire form of sections 3.1 and 4.1.2 of RFC 1035 is extracted as its dotted join, which splits into its labels |
| `Dns.ExtractedNameWasThere` | src/ids/dns.rs:144-181 | every extracted name is the join of labels that follow the header in wire form |
| `Dns.InspectName` | src/ids/dns.rs:60-119 | the signals about a name, in order |
| `Dns.InspectPayload` | src/ids/dns.rs:28-57 | the name signals and the tunnel signal; the header bytes it reads exist |
| `Dns.QuietNameIff` | src/ids/dns.rs:60-119 | a name raises nothing if and only if it is short, ends well, and no label before the last is long or random |
| `Dns.NameSignalsIff` | src/ids/dns.rs:60-119 | each signal about a name, exactly when it is raised |
| `Dns.TunnelIff` | src/ids/dns.rs:37-54 | the tunnel signal if and only if a name was read and the payload is a response with answers of 400 bytes or more |
| `Dns.TrimTakesDots` | src/ids/dns.rs:62 | the trimmed name ends in no dot, and the name is it followed by dots only |
| `Dns.NameSignalsScore` | src/ids/dns.rs:60-119 | every signal about a name scores at least 15 |
| `Blacklist.CidrIsBlock` | src/ids/blacklist.rs:19-36 | a prefix of n <= 32 bits matches exactly the 2^(32 - n) addresses from its base on |
| `Blacklist.OverlongPrefixWraps` | src/ids/blacklist.rs:23-27 | a longer prefix acts as the length from 1 to 32 congruent to it |
| `Blacklist.CoveredIffInSomeBlock` | src/ids/blacklist.rs:86-95 | an address is covered if and only if it lies in one of the added blocks |
| `Blacklist.CidrComparesLeadingBits` | src/ids/blacklist.rs:19-36 | a stored prefix of any length matches exactly the addresses that agree with it on its leading bits |
| `Blacklist.PrefixesCompareLeadingOctets` | src/ids/blacklist.rs:19-36 | prefixes of 8, 16, 24 and 32 bits cover exactly the addresses with the same leading one to four octets |
| `Blacklist.AddressIsListedIff` | src/ids/blacklist.rs:66-98 | a.b.c.d is listed exactly if a*2^24 + b*2^16 + c*2^8 + d was added, by prefix exactly if not, but if it shares an added prefix |
| `Blacklist.Blacklist.CheckIp` | src/ids/blacklist.rs:66-98 | the answer is that of the exact set and the prefixes alone, as the row above spells it out; the Bloom filter never hides an added address |
| `Blacklist.Blacklist.AddIp` | src/ids/blacklist.rs:114-117 | the exact set grows by the address and the filter by its bits |
| `Blacklist.Blacklist.AddCidr` | src/ids/blacklist.rs:119-123 | the prefixes grow by the added one |
| `Blacklist.Blacklist.CheckDomain` | src/ids/blacklist.rs:100-130 | a hit if and only if some added domain is the same up to case and trailing dots |
| `Blacklist.EveryInterleavingIsCoherent` | src/ids/blacklist.rs:72-84 | with adds and checks interleaved lock by lock, every exact address is Bloom-positive, no finished add is overlooked and nothing else is hit |

## Left out

- `IdsEngine.Analyze` in flight: the per-source detectors are not interleaved at lock granularity in `Flights.dfy`; their answers are arbitrary there. `RstRaces.dfy` does so for the half-open table and the RST check.
- The analyzer loop and the blocking pop are states of a step system, not methods: they interleave with capture and close, and neither need end.
- Batches count as sent when they are handed to the batch channel; the ingestion stream, acks, registration and heartbeats are not modelled.
- `PacketEvent` keeps the packet's identity, score and flag; the fields copied from the packet, the payload hash and the flag names are not modelled.
- Device opening, filters, timestamps and the capture loop: capture is a source of packets with increasing numbers.
- Shannon entropy, lossy decoding, full lowercasing and the address hash are arbitrary functions; `NameRoundTrip` is stated for ASCII labels.
- Signature patterns and their automaton, and the country database: arbitrary functions.
- Text parsing of addresses, prefixes and list files; `OverlongPrefixWraps` is the release-build behaviour, a debug build would stop there.
- Persistence to disk beyond what a restart resumes with; the hourly rates, which nothing calls.
- Rounding of floating-point tokens, scores and averages, overflow of 64-bit counters, and clocks that run backwards.
- Details of signals, logging, configuration, agent identity, and the synthetic test sender.
