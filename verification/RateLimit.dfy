/**
 Per-source rate limiting: a token bucket for packets and one tumbling window for bytes and new
 connections, kept in a map that a background sweeper prunes.
 */
module RateLimit {
  import opened Types
  import opened Score
  import TB = TokenBucket
  import TW = TumblingWindow

  datatype Limits = Limits(
    pktRate: real, capacity: real, bytesRate: nat, connRate: nat, windowSecs: real, evictAfter: real)
  {
    /** Eviction waits for the window to lapse and for the bucket to refill completely. */
    predicate Sane() {
      pktRate >= 0.0 && capacity >= 0.0 && 0.0 < windowSecs <= evictAfter
      && evictAfter * pktRate >= capacity
    }
  }

  const DEFAULTS := Limits(500.0, 1000.0, 10 * 1024 * 1024, 50, 1.0, 120.0)

  datatype Bucket = Bucket(tokens: real, lastRefill: real, bytes: nat, connections: nat, windowStart: real) {
    function Window(): TW.Window {
      TW.Window(windowStart, bytes, connections)
    }
  }

  datatype Packet = Packet(src: IpAddr, bytes: nat, syn: bool, now: real) {
    function Tick(): TW.Tick {
      TW.Tick(now, bytes, if syn then 1 else 0)
    }
  }

  datatype Event = Seen(packet: Packet) | Sweep(at: real) {
    function Time(): real {
      if Seen? then packet.now else at
    }
  }

  function NewBucket(l: Limits, now: real): Bucket {
    Bucket(l.capacity, now, 0, 0, now)
  }

  /** One packet against its bucket: the bucket afterwards and the signal, if any. */
  function Observe(l: Limits, b: Bucket, p: Packet): (Bucket, Option<Signal>) {
    var w := TW.Advance(b.Window(), l.windowSecs, p.Tick());
    var level := TB.Refilled(b.tokens, p.now - b.lastRefill, l.pktRate, l.capacity);
    var within := level >= 1.0;
    (Bucket(if within then level - 1.0 else level, p.now, w.first, w.second, w.start),
     Judge(l, within, w, p.syn))
  }

  /** The limits are tried in a fixed order: packets, bytes, connections. */
  function Judge(l: Limits, within: bool, w: TW.Window, syn: bool): Option<Signal> {
    if !within then Some(Signal(RatePackets, SCORE_RATE_EXCEEDED))
    else if w.first > l.bytesRate then Some(Signal(RateBytes, SCORE_RATE_EXCEEDED))
    else if syn && w.second > l.connRate then Some(Signal(RateConnections, SCORE_RATE_EXCEEDED))
    else None
  }

  function Fetch(l: Limits, buckets: map<IpAddr, Bucket>, src: IpAddr, now: real): Bucket {
    if src in buckets then buckets[src] else NewBucket(l, now)
  }

  function Retained(l: Limits, buckets: map<IpAddr, Bucket>, now: real): map<IpAddr, Bucket> {
    map src | src in buckets && now - buckets[src].lastRefill < l.evictAfter :: buckets[src]
  }

  function Step(l: Limits, buckets: map<IpAddr, Bucket>, e: Event): map<IpAddr, Bucket> {
    match e
    case Seen(p) => buckets[p.src := Observe(l, Fetch(l, buckets, p.src, p.now), p).0]
    case Sweep(now) => Retained(l, buckets, now)
  }

  function Run(l: Limits, log: seq<Event>): map<IpAddr, Bucket> {
    if log == [] then map[] else Step(l, Run(l, Init(log)), Last(log))
  }

  /** Time does not run backwards. */
  predicate Ordered(log: seq<Event>) {
    log == [] || (Ordered(Init(log)) && NotBefore(Init(log), Last(log).Time()))
  }

  predicate NotBefore(log: seq<Event>, now: real) {
    log == [] || Last(log).Time() <= now
  }

  /** The detector as the source has it: a map of buckets updated in place. */
  class RateLimiter {
    const limits: Limits
    var buckets: map<IpAddr, Bucket>
    ghost var log: seq<Event>

    ghost predicate Valid()
      reads this
    {
      limits.Sane() && Ordered(log) && buckets == Run(limits, log)
    }

    constructor ()
      ensures Valid() && log == []
      ensures limits == Limits(500.0, 1000.0, 10_485_760, 50, 1.0, 120.0)
    {
      limits := DEFAULTS;
      buckets := map[];
      log := [];
    }

    /** The answer is a function of this source's own packets; no sweep has any part in it. */
    method Inspect(src: IpAddr, pktBytes: nat, isSyn: bool, now: real) returns (r: Option<Signal>)
      requires Valid() && NotBefore(log, now)
      modifies this
      ensures Valid() && log == old(log) + [Seen(Packet(src, pktBytes, isSyn, now))]
      ensures var g := PacketsOf(old(log), src);
              r == Verdict(limits, g + [Packet(src, pktBytes, isSyn, now)], |g|)
    {
      ghost var p := Packet(src, pktBytes, isSyn, now);
      VerdictIgnoresSweeps(limits, log, p);
      var bucket := Fetch(limits, buckets, src, now);
      bucket := CountInWindow(bucket, limits.windowSecs, pktBytes, isSyn, now);
      var withinRate;
      bucket, withinRate := Consume(bucket, limits.pktRate, limits.capacity, now);
      buckets := buckets[src := bucket];
      log := log + [Seen(p)];
      assert Init(log) == old(log);
      if !withinRate {
        return Some(Signal(RatePackets, SCORE_RATE_EXCEEDED));
      }
      if bucket.bytes > limits.bytesRate {
        return Some(Signal(RateBytes, SCORE_RATE_EXCEEDED));
      }
      if isSyn && bucket.connections > limits.connRate {
        return Some(Signal(RateConnections, SCORE_RATE_EXCEEDED));
      }
      return None;
    }

    method Sweep(now: real)
      requires Valid() && NotBefore(log, now)
      modifies this
      ensures Valid() && log == old(log) + [Event.Sweep(now)]
      ensures forall src :: PacketsOf(log, src) == PacketsOf(old(log), src)
      ensures forall src :: src in buckets <==>
                src in old(buckets) && now - old(buckets)[src].lastRefill < limits.evictAfter
    {
      buckets := Retained(limits, buckets, now);
      log := log + [Event.Sweep(now)];
      assert Init(log) == old(log);
    }
  }

  method CountInWindow(bucket: Bucket, windowSecs: real, pktBytes: nat, isSyn: bool, now: real)
    returns (b: Bucket)
    ensures b.Window() == TW.Advance(bucket.Window(), windowSecs, TW.Tick(now, pktBytes, if isSyn then 1 else 0))
    ensures b.tokens == bucket.tokens && b.lastRefill == bucket.lastRefill
  {
    b := bucket;
    if now - b.windowStart >= windowSecs {
      b := b.(bytes := 0, connections := 0, windowStart := now);
    }
    b := b.(bytes := b.bytes + pktBytes);
    if isSyn {
      b := b.(connections := b.connections + 1);
    }
  }

  method Consume(bucket: Bucket, rate: real, capacity: real, now: real) returns (b: Bucket, ok: bool)
    ensures var level := TB.Refilled(bucket.tokens, now - bucket.lastRefill, rate, capacity);
            && ok == (level >= 1.0)
            && b == bucket.(tokens := if ok then level - 1.0 else level, lastRefill := now)
  {
    b := bucket.(tokens := TB.Refilled(bucket.tokens, now - bucket.lastRefill, rate, capacity), lastRefill := now);
    ok := b.tokens >= 1.0;
    if ok {
      b := b.(tokens := b.tokens - 1.0);
    }
  }

  // --- One source on its own ---------------------------------------------------------------------

  /** The packets of one source, in order; sweeps and other sources are forgotten. */
  function PacketsOf(log: seq<Event>, src: IpAddr): seq<Packet> {
    if log == [] then []
    else PacketsOf(Init(log), src)
         + if Last(log).Seen? && Last(log).packet.src == src then [Last(log).packet] else []
  }

  /** The bucket after packet `n` when nothing is ever evicted. */
  function Replay(l: Limits, h: seq<Packet>, n: nat): Bucket
    requires n < |h|
  {
    Observe(l, if n == 0 then NewBucket(l, h[0].now) else Replay(l, h, n - 1), h[n]).0
  }

  /** The bucket packet `n` meets when nothing is ever evicted. */
  function Before(l: Limits, h: seq<Packet>, n: nat): Bucket
    requires n < |h|
  {
    if n == 0 then NewBucket(l, h[0].now) else Replay(l, h, n - 1)
  }

  /** The answer to packet `n` when nothing is ever evicted. */
  function Verdict(l: Limits, h: seq<Packet>, n: nat): Option<Signal>
    requires n < |h|
  {
    Observe(l, Before(l, h, n), h[n]).1
  }

  function Times(h: seq<Packet>): (r: seq<real>)
    ensures |r| == |h| && forall i :: 0 <= i < |h| ==> r[i] == h[i].now
  {
    seq(|h|, i requires 0 <= i < |h| => h[i].now)
  }

  function Ticks(h: seq<Packet>): (r: seq<TW.Tick>)
    ensures |r| == |h| && forall i :: 0 <= i < |h| ==> r[i] == h[i].Tick()
  {
    seq(|h|, i requires 0 <= i < |h| => h[i].Tick())
  }

  predicate InOrder(h: seq<Packet>) {
    forall i, j :: 0 <= i <= j < |h| ==> h[i].now <= h[j].now
  }

  /** The bucket is a token bucket and a tumbling window side by side. */
  lemma {:induction false} ReplayFactors(l: Limits, h: seq<Packet>, n: nat)
    requires n < |h|
    ensures var b := Replay(l, h, n);
            && b.tokens == TB.Charged(l.capacity, l.pktRate, Times(h), n)
            && b.lastRefill == h[n].now
            && b.Window() == TW.Replay(l.windowSecs, Ticks(h), n)
  {
    if n > 0 {
      ReplayFactors(l, h, n - 1);
    }
    BeforeFactors(l, h, n);
  }

  lemma {:induction false} BeforeFactors(l: Limits, h: seq<Packet>, n: nat)
    requires n < |h|
    requires n > 0 ==>
      var b := Replay(l, h, n - 1);
      && b.tokens == TB.Charged(l.capacity, l.pktRate, Times(h), n - 1)
      && b.lastRefill == h[n - 1].now
      && b.Window() == TW.Replay(l.windowSecs, Ticks(h), n - 1)
    ensures var b := Before(l, h, n);
            && TB.Refilled(b.tokens, h[n].now - b.lastRefill, l.pktRate, l.capacity)
               == TB.Level(l.capacity, l.pktRate, Times(h), n)
            && TW.Advance(b.Window(), l.windowSecs, h[n].Tick()) == TW.Replay(l.windowSecs, Ticks(h), n)
  {
    if n == 0 {
      TB.NoTimeEarnsNothing(h[0].now, l.pktRate, l.capacity);
    }
  }

  lemma {:induction false} ReplayPrefix(l: Limits, h: seq<Packet>, g: seq<Packet>, n: nat)
    requires n < |h| <= |g| && h == g[..|h|]
    ensures Replay(l, h, n) == Replay(l, g, n)
  {
    if n > 0 {
      ReplayPrefix(l, h, g, n - 1);
    }
  }

  // --- Which sources are held ----------------------------------------------------------------------

  /** Source `src` sent its latest packet at `t`, and no sweep came `evictAfter` or more after that. */
  ghost predicate Kept(l: Limits, log: seq<Event>, src: IpAddr, t: real) {
    if log == [] then false
    else
      match Last(log)
      case Seen(p) => if p.src == src then p.now == t else Kept(l, Init(log), src, t)
      case Sweep(at) => Kept(l, Init(log), src, t) && at - t < l.evictAfter
  }

  /** A bucket is held for exactly the sources kept, so memory is given back and none too early. */
  lemma {:induction false} BucketsAreKeptSources(l: Limits, log: seq<Event>, src: IpAddr, t: real)
    ensures src in Run(l, log) && Run(l, log)[src].lastRefill == t <==> Kept(l, log, src, t)
  {
    if log != [] {
      BucketsAreKeptSources(l, Init(log), src, t);
    }
  }

  // --- Sweeping cannot be observed ---------------------------------------------------------------

  lemma {:induction false} PacketsInOrder(log: seq<Event>, src: IpAddr)
    requires Ordered(log)
    ensures var h := PacketsOf(log, src);
            InOrder(h) && (h != [] ==> log != [] && Last(h).now <= Last(log).Time())
  {
    if log != [] {
      PacketsInOrder(Init(log), src);
    }
  }

  /** What the map may hold for a source after a run: its never-evicted bucket, or nothing if that bucket is stale. */
  ghost predicate Agrees(l: Limits, buckets: map<IpAddr, Bucket>, src: IpAddr, h: seq<Packet>, now: real) {
    && (src in buckets ==> h != [] && buckets[src] == Replay(l, h, |h| - 1))
    && (src !in buckets && h != [] ==> now - Last(h).now >= l.evictAfter)
  }

  lemma {:induction false} RunAgreesWithReplay(l: Limits, log: seq<Event>, src: IpAddr, now: real)
    requires l.Sane() && Ordered(log) && NotBefore(log, now)
    ensures Agrees(l, Run(l, log), src, PacketsOf(log, src), now)
  {
    if log != [] {
      var prior, e := Init(log), Last(log);
      var g := PacketsOf(prior, src);
      RunAgreesWithReplay(l, prior, src, e.Time());
      if g != [] {
        ReplayFactors(l, g, |g| - 1);
      }
      if e.Seen? && e.packet.src == src {
        PacketsInOrder(prior, src);
        NextReplay(l, Run(l, prior), g, e.packet);
      } else {
        assert PacketsOf(log, src) == g;
      }
    }
  }

  /** Serving one packet of a source moves its bucket as the never-evicted one moves. */
  lemma {:induction false} NextReplay(l: Limits, buckets: map<IpAddr, Bucket>, g: seq<Packet>, p: Packet)
    requires l.Sane() && InOrder(g) && Agrees(l, buckets, p.src, g, p.now)
    ensures var h := g + [p];
            Observe(l, Fetch(l, buckets, p.src, p.now), p) == (Replay(l, h, |g|), Verdict(l, h, |g|))
  {
    if g != [] {
      ReplayPrefix(l, g, g + [p], |g| - 1);
      if p.src !in buckets {
        StaleBucketIsFresh(l, g, p);
      }
    }
  }

  /** Once evictable, a bucket answers the next packet as a newly created one does. */
  lemma {:induction false} LapsedBucketIsFresh(l: Limits, b: Bucket, p: Packet)
    requires l.Sane() && b.tokens >= 0.0 && b.windowStart <= b.lastRefill
    requires p.now - b.lastRefill >= l.evictAfter
    ensures Observe(l, b, p) == Observe(l, NewBucket(l, p.now), p)
  {
    TB.RefillsCompletely(b.tokens, p.now - b.lastRefill, l.pktRate, l.capacity, l.evictAfter);
    TB.NoTimeEarnsNothing(p.now, l.pktRate, l.capacity);
    var b0 := NewBucket(l, p.now);
    assert TW.Advance(b.Window(), l.windowSecs, p.Tick()) == TW.Advance(b0.Window(), l.windowSecs, p.Tick());
  }

  lemma {:induction false} StaleBucketIsFresh(l: Limits, g: seq<Packet>, p: Packet)
    requires l.Sane() && InOrder(g) && g != []
    requires p.now - Last(g).now >= l.evictAfter
    ensures Observe(l, Replay(l, g, |g| - 1), p) == Observe(l, NewBucket(l, p.now), p)
  {
    var n := |g| - 1;
    ReplayFactors(l, g, n);
    TB.LevelInRange(l.capacity, l.pktRate, Times(g), n);
    TW.WindowIsRecent(l.windowSecs, Ticks(g), n, TW.First);
    LapsedBucketIsFresh(l, Replay(l, g, n), p);
  }

  /** After any run, whatever was swept and whenever, the next answer is the never-evicted one. */
  lemma {:induction false} VerdictIgnoresSweeps(l: Limits, log: seq<Event>, p: Packet)
    requires l.Sane() && Ordered(log) && NotBefore(log, p.now)
    ensures var h := PacketsOf(log, p.src) + [p];
            PacketsOf(log + [Seen(p)], p.src) == h
            && Observe(l, Fetch(l, Run(l, log), p.src, p.now), p).1 == Verdict(l, h, |h| - 1)
  {
    assert Init(log + [Seen(p)]) == log;
    RunAgreesWithReplay(l, log, p.src, p.now);
    PacketsInOrder(log, p.src);
    NextReplay(l, Run(l, log), PacketsOf(log, p.src), p);
  }

  /** A log with its sweeps struck out. */
  function Unswept(log: seq<Event>): seq<Event> {
    if log == [] then []
    else Unswept(Init(log)) + if Last(log).Seen? then [Last(log)] else []
  }

  lemma {:induction false} UnsweptKeepsPackets(log: seq<Event>, src: IpAddr)
    ensures PacketsOf(Unswept(log), src) == PacketsOf(log, src)
  {
    if log != [] {
      UnsweptKeepsPackets(Init(log), src);
      if Last(log).Seen? {
        assert Init(Unswept(log)) == Unswept(Init(log));
      } else {
        assert Unswept(log) == Unswept(Init(log));
      }
    }
  }

  /** Two runs that differ only in their sweeps answer the next packet alike. */
  lemma {:induction false} SweepingIsUnobservable(l: Limits, log: seq<Event>, other: seq<Event>, p: Packet)
    requires l.Sane() && Ordered(log) && Ordered(other) && NotBefore(log, p.now) && NotBefore(other, p.now)
    requires Unswept(log) == Unswept(other)
    ensures Observe(l, Fetch(l, Run(l, log), p.src, p.now), p).1
         == Observe(l, Fetch(l, Run(l, other), p.src, p.now), p).1
  {
    UnsweptKeepsPackets(log, p.src);
    UnsweptKeepsPackets(other, p.src);
    VerdictIgnoresSweeps(l, log, p);
    VerdictIgnoresSweeps(l, other, p);
  }

  // --- What each signal means --------------------------------------------------------------------

  /** The bytes of packets `lo` to `hi`, the last one excluded. */
  function BytesIn(h: seq<Packet>, lo: nat, hi: nat): nat
    requires hi <= |h|
  {
    if lo >= hi then 0 else BytesIn(h, lo, hi - 1) + h[hi - 1].bytes
  }

  /** How many of them are SYNs. */
  function SynsIn(h: seq<Packet>, lo: nat, hi: nat): nat
    requires hi <= |h|
  {
    if lo >= hi then 0 else SynsIn(h, lo, hi - 1) + if h[hi - 1].syn then 1 else 0
  }

  lemma {:induction false} SumsAreCounts(h: seq<Packet>, lo: nat, hi: nat)
    requires hi <= |h|
    ensures TW.Sum(Ticks(h), lo, hi, TW.First) == BytesIn(h, lo, hi)
    ensures TW.Sum(Ticks(h), lo, hi, TW.Second) == SynsIn(h, lo, hi)
  {
    if lo < hi {
      SumsAreCounts(h, lo, hi - 1);
    }
  }

  /** The packet signal fires exactly when admitting the packet would break the envelope on some interval. */
  lemma {:induction false} PacketSignalIffEnvelopeBroken(l: Limits, h: seq<Packet>, n: nat)
    requires n < |h|
    ensures Verdict(l, h, n) == Some(Signal(RatePackets, 40))
            <==> TB.WouldBreakEnvelope(l.capacity, l.pktRate, Times(h), n)
  {
    VerdictByParts(l, h, n);
    TB.RefusedIffEnvelopeBroken(l.capacity, l.pktRate, Times(h), n);
  }

  lemma {:induction false} VerdictByParts(l: Limits, h: seq<Packet>, n: nat)
    requires n < |h|
    ensures Verdict(l, h, n) ==
            var b := Replay(l, h, n);
            Judge(l, TB.Admits(l.capacity, l.pktRate, Times(h), n), b.Window(), h[n].syn)
  {
    if n > 0 {
      ReplayFactors(l, h, n - 1);
    }
    BeforeFactors(l, h, n);
  }

  /** What the source sent, up to packet `n`, since the window current at packet `n` opened. */
  function BytesInWindow(l: Limits, h: seq<Packet>, n: nat): nat
    requires n < |h|
  {
    BytesIn(h, TW.OpenedBy(l.windowSecs, Ticks(h), n), n + 1)
  }

  function SynsInWindow(l: Limits, h: seq<Packet>, n: nat): nat
    requires n < |h|
  {
    SynsIn(h, TW.OpenedBy(l.windowSecs, Ticks(h), n), n + 1)
  }

  /**
   Exactly when each signal fires: bytes only within the packet rate, connections only within both
   and on a SYN, and each by what the source sent since a window opened less than one span ago.
   */
  lemma {:induction false} WindowSignalsIff(l: Limits, h: seq<Packet>, n: nat)
    requires l.Sane() && n < |h|
    ensures var o := TW.OpenedBy(l.windowSecs, Ticks(h), n); h[n].now - h[o].now < l.windowSecs
    ensures var within := !TB.WouldBreakEnvelope(l.capacity, l.pktRate, Times(h), n);
            && (Verdict(l, h, n) == Some(Signal(RateBytes, 40))
                <==> within && BytesInWindow(l, h, n) > l.bytesRate)
            && (Verdict(l, h, n) == Some(Signal(RateConnections, 40))
                <==> within && BytesInWindow(l, h, n) <= l.bytesRate && h[n].syn && SynsInWindow(l, h, n) > l.connRate)
  {
    VerdictByParts(l, h, n);
    TB.RefusedIffEnvelopeBroken(l.capacity, l.pktRate, Times(h), n);
    WindowCounts(l, h, n);
  }

  lemma {:induction false} WindowCounts(l: Limits, h: seq<Packet>, n: nat)
    requires l.Sane() && n < |h|
    ensures var w := Replay(l, h, n).Window();
            w.first == BytesInWindow(l, h, n) && w.second == SynsInWindow(l, h, n)
    ensures var o := TW.OpenedBy(l.windowSecs, Ticks(h), n); h[n].now - h[o].now < l.windowSecs
  {
    ReplayFactors(l, h, n);
    TW.WindowIsRecent(l.windowSecs, Ticks(h), n, TW.First);
    TW.WindowIsRecent(l.windowSecs, Ticks(h), n, TW.Second);
    SumsAreCounts(h, TW.OpenedBy(l.windowSecs, Ticks(h), n), n + 1);
  }

  /** A byte or connection signal means the limit was passed in less than one window ending now. */
  lemma {:induction false} WindowSignalsAreSound(l: Limits, h: seq<Packet>, n: nat)
    requires l.Sane() && n < |h|
    ensures Verdict(l, h, n) == Some(Signal(RateBytes, 40)) ==>
            exists o :: 0 <= o <= n && h[n].now - h[o].now < l.windowSecs && BytesIn(h, o, n + 1) > l.bytesRate
    ensures Verdict(l, h, n) == Some(Signal(RateConnections, 40)) ==>
            exists o :: 0 <= o <= n && h[n].now - h[o].now < l.windowSecs && SynsIn(h, o, n + 1) > l.connRate
  {
    WindowSignalsIff(l, h, n);
  }

  /** A stretch shorter than one window that carries more than twice a limit raises a signal inside it. */
  lemma {:induction false} WindowSignalsAreTwoComplete(l: Limits, h: seq<Packet>, i: nat, n: nat)
    requires l.Sane() && InOrder(h) && i <= n < |h| && h[n].now - h[i].now < l.windowSecs
    requires BytesIn(h, i, n + 1) > 2 * l.bytesRate || SynsIn(h, i, n + 1) > 2 * l.connRate
    ensures exists k :: i <= k <= n && Verdict(l, h, k) != None
  {
    SumsAreCounts(h, i, n + 1);
    if BytesIn(h, i, n + 1) > 2 * l.bytesRate {
      var k := HalfIsSeen(l, h, i, n, TW.First);
    } else {
      var k := HalfIsSeen(l, h, i, n, TW.Second);
    }
  }

  /** Of a stretch shorter than one window, the counters show at least half after one of the packets that count. */
  lemma {:induction false} HalfIsSeen(l: Limits, h: seq<Packet>, i: nat, n: nat, c: TW.Counter) returns (k: nat)
    requires l.Sane() && InOrder(h) && i <= n < |h| && h[n].now - h[i].now < l.windowSecs
    requires TW.Sum(Ticks(h), i, n + 1, c) > 0
    ensures i <= k <= n && TW.Amount(Ticks(h)[k], c) > 0
    ensures 2 * TW.Read(Replay(l, h, k).Window(), c) >= TW.Sum(Ticks(h), i, n + 1, c)
    ensures Verdict(l, h, k)
         == Judge(l, TB.Admits(l.capacity, l.pktRate, Times(h), k), Replay(l, h, k).Window(), h[k].syn)
  {
    TW.HalfIsSeen(l.windowSecs, Ticks(h), i, n, c);
    k :| i <= k <= n && TW.Amount(Ticks(h)[k], c) > 0
         && 2 * TW.Read(TW.Replay(l.windowSecs, Ticks(h), k), c) >= TW.Sum(Ticks(h), i, n + 1, c);
    ReplayFactors(l, h, k);
    VerdictByParts(l, h, k);
  }
}
