/** Scoring: signals, thresholds, and the aggregation of one packet's signals into a result. */
module Score {
  import opened Types

  datatype SignalName =
    | BlacklistedIp | BlacklistedCidr | BlacklistedDomain
    | RatePackets | RateBytes | RateConnections
    | PortScanHorizontal | PortScanVertical
    | SynFlood | HalfOpenHigh | RstInjection | XmasScan
    | IcmpUnusualType | IpFragmentation | PacketTruncated
    | GeoNewCountry | PayloadSignature(rule: nat)
    | DnsLongFqdn | DnsSuspiciousTld | DnsLongLabel | DnsHighEntropy | DnsTunnelLargeResponse
    | UnusualPort | VlanReservedId

  datatype Signal = Signal(name: SignalName, score: int)

  datatype Severity = Info | Warning | Alert | Critical

  const THRESHOLD_INFO := 30
  const THRESHOLD_WARNING := 60
  const THRESHOLD_ALERT := 85
  const THRESHOLD_CRITICAL := 95
  const CORRELATION_BONUS := 10
  const SCORE_CAP := 100

  const SCORE_BLACKLIST_IP := 90
  const SCORE_BLACKLIST_DOMAIN := 80
  const SCORE_PAYLOAD_SIG := 70
  const SCORE_SYN_FLOOD := 65
  const SCORE_PORT_SCAN := 60
  const SCORE_PORT_SCAN_XMAS := 55
  const SCORE_HALF_OPEN_HIGH := 50
  const SCORE_DNS_ANOMALY := 45
  const SCORE_RATE_EXCEEDED := 40
  const SCORE_GEO_ANOMALY := 35
  const SCORE_UNUSUAL_PORT_NETWORK := 30
  const SCORE_UNUSUAL_PORT_GLOBAL := 20

  datatype IdsResult = IdsResult(total: int, severity: Severity, flag: int, signals: seq<Signal>) {
    predicate IsClean() {
      total < THRESHOLD_INFO
    }
  }

  function SeverityOf(score: int): Severity {
    if score >= THRESHOLD_ALERT then
      if score >= THRESHOLD_CRITICAL then Critical else Alert
    else if score >= THRESHOLD_WARNING then Warning
    else Info
  }

  function Rank(s: Severity): nat {
    match s
    case Info => 0
    case Warning => 1
    case Alert => 2
    case Critical => 3
  }

  function Scores(signals: seq<Signal>): (r: seq<int>)
    ensures |r| == |signals|
  {
    seq(|signals|, i requires 0 <= i < |signals| => signals[i].score)
  }

  function SumOf(xs: seq<int>): int {
    if xs == [] then 0 else xs[0] + SumOf(xs[1..])
  }

  function TotalOf(scores: seq<int>): int {
    var bonus := if |scores| >= 2 then CORRELATION_BONUS else 0;
    Min(SumOf(scores) + bonus, SCORE_CAP)
  }

  /** Where a stable descending sort places `x`: behind everything that scores at least as much. */
  function Place(sorted: seq<Signal>, x: Signal): seq<Signal> {
    if sorted == [] then [x]
    else if sorted[0].score >= x.score then [sorted[0]] + Place(sorted[1..], x)
    else [x] + sorted
  }

  function SortDescending(signals: seq<Signal>): seq<Signal> {
    if signals == [] then [] else Place(SortDescending(Init(signals)), Last(signals))
  }

  function FromSignals(signals: seq<Signal>, flag: int): IdsResult {
    var total := TotalOf(Scores(signals));
    IdsResult(total, SeverityOf(total), flag, SortDescending(signals))
  }

  // --- The returned list -------------------------------------------------------------------------

  predicate Descending(s: seq<Signal>) {
    forall i, j :: 0 <= i < j < |s| ==> s[i].score >= s[j].score
  }

  /** The signals with a given score, in order. */
  function Scoring(s: seq<Signal>, v: int): seq<Signal> {
    if s == [] then [] else (if s[0].score == v then [s[0]] else []) + Scoring(s[1..], v)
  }

  lemma {:induction false} PlacePermutes(sorted: seq<Signal>, x: Signal)
    ensures multiset(Place(sorted, x)) == multiset(sorted) + multiset{x}
  {
    if sorted != [] {
      assert sorted == [sorted[0]] + sorted[1..];
      if sorted[0].score >= x.score {
        PlacePermutes(sorted[1..], x);
      }
    }
  }

  lemma {:induction false} PlaceDescends(sorted: seq<Signal>, x: Signal)
    requires Descending(sorted)
    ensures Descending(Place(sorted, x))
  {
    if sorted != [] && sorted[0].score >= x.score {
      var r := Place(sorted[1..], x);
      PlaceDescends(sorted[1..], x);
      PlacePermutes(sorted[1..], x);
      assert Place(sorted, x) == [sorted[0]] + r;
      forall i | 0 <= i < |r|
        ensures r[i].score <= sorted[0].score
      {
        assert r[i] in multiset(r);
      }
    }
  }

  lemma {:induction false} PlaceIsStable(sorted: seq<Signal>, x: Signal, v: int)
    requires Descending(sorted)
    ensures Scoring(Place(sorted, x), v) == Scoring(sorted, v) + if x.score == v then [x] else []
  {
    if sorted == [] {
      ScoringCons(x, [], v);
    } else if sorted[0].score >= x.score {
      var s0, rest := sorted[0], sorted[1..];
      PlaceIsStable(rest, x, v);
      ScoringCons(s0, Place(rest, x), v);
    } else {
      ScoringCons(x, sorted, v);
      if x.score == v {
        NoneScoring(sorted, v);
      }
    }
  }

  lemma {:induction false} ScoringCons(x: Signal, s: seq<Signal>, v: int)
    ensures Scoring([x] + s, v) == (if x.score == v then [x] else []) + Scoring(s, v)
  {
    assert ([x] + s)[1..] == s;
  }

  lemma {:induction false} NoneScoring(s: seq<Signal>, v: int)
    requires forall i :: 0 <= i < |s| ==> s[i].score < v
    ensures Scoring(s, v) == []
  {
    if s != [] {
      NoneScoring(s[1..], v);
    }
  }

  lemma {:induction false} ScoringAppend(s: seq<Signal>, x: Signal, v: int)
    ensures Scoring(s + [x], v) == Scoring(s, v) + if x.score == v then [x] else []
  {
    if s != [] {
      assert (s + [x])[1..] == s[1..] + [x];
      ScoringAppend(s[1..], x, v);
    }
  }

  /** The list handed back is the one stable descending arrangement of the signals. */
  lemma {:induction false} SortIsStableDescendingPermutation(signals: seq<Signal>)
    ensures var r := SortDescending(signals);
            Descending(r) && multiset(r) == multiset(signals)
            && forall v :: Scoring(r, v) == Scoring(signals, v)
  {
    if signals != [] {
      var front, x := Init(signals), Last(signals);
      SortIsStableDescendingPermutation(front);
      PlaceDescends(SortDescending(front), x);
      PlacePermutes(SortDescending(front), x);
      assert signals == front + [x];
      forall v
        ensures Scoring(SortDescending(signals), v) == Scoring(signals, v)
      {
        PlaceIsStable(SortDescending(front), x, v);
        ScoringAppend(front, x, v);
      }
    }
  }

  // --- The total ---------------------------------------------------------------------------------

  predicate NonNegative(xs: seq<int>) {
    forall i :: 0 <= i < |xs| ==> xs[i] >= 0
  }

  lemma {:induction false} SumWithout(xs: seq<int>, k: nat)
    requires k < |xs|
    ensures SumOf(xs) == xs[k] + SumOf(xs[..k] + xs[k + 1..])
  {
    if k == 0 {
      assert xs[..0] + xs[1..] == xs[1..];
    } else {
      SumWithout(xs[1..], k - 1);
      assert (xs[..k] + xs[k + 1..])[1..] == xs[1..][..k - 1] + xs[1..][k..];
    }
  }

  lemma {:induction false} Cancel(a: multiset<int>, b: multiset<int>, x: int)
    requires a + multiset{x} <= b + multiset{x}
    ensures a <= b
  {
    forall y
      ensures a[y] <= b[y]
    {
      assert (a + multiset{x})[y] <= (b + multiset{x})[y];
    }
  }

  lemma {:induction false} SumMonotone(xs: seq<int>, ys: seq<int>)
    requires multiset(xs) <= multiset(ys) && NonNegative(ys)
    ensures SumOf(xs) <= SumOf(ys) && |xs| <= |ys|
  {
    if xs == [] {
      SumNonNegative(ys);
    } else {
      assert xs[0] in multiset(xs);
      var k :| 0 <= k < |ys| && ys[k] == xs[0];
      var rest := ys[..k] + ys[k + 1..];
      MatchedRest(xs, ys, k);
      SumWithout(ys, k);
      SumMonotone(xs[1..], rest);
    }
  }

  lemma {:induction false} MatchedRest(xs: seq<int>, ys: seq<int>, k: nat)
    requires xs != [] && k < |ys| && ys[k] == xs[0] && multiset(xs) <= multiset(ys)
    ensures multiset(xs[1..]) <= multiset(ys[..k] + ys[k + 1..])
  {
    var rest := ys[..k] + ys[k + 1..];
    assert ys == ys[..k] + [ys[k]] + ys[k + 1..];
    assert xs == [xs[0]] + xs[1..];
    assert multiset(ys) == multiset(rest) + multiset{xs[0]};
    assert multiset(xs) == multiset(xs[1..]) + multiset{xs[0]};
    Cancel(multiset(xs[1..]), multiset(rest), xs[0]);
  }

  lemma {:induction false} SumNonNegative(xs: seq<int>)
    requires NonNegative(xs)
    ensures SumOf(xs) >= 0
  {
    if xs != [] {
      SumNonNegative(xs[1..]);
    }
  }

  /**
   Adding signals, in any position and however the rest is rearranged, never lowers the total or the
   severity, and so never makes a non-clean packet clean.
   */
  lemma {:induction false} MoreSignalsNeverScoreLess(s: seq<Signal>, t: seq<Signal>, f: int, g: int)
    requires multiset(Scores(s)) <= multiset(Scores(t)) && NonNegative(Scores(t))
    ensures var a, b := FromSignals(s, f), FromSignals(t, g);
            && 0 <= a.total <= b.total <= SCORE_CAP
            && Rank(a.severity) <= Rank(b.severity)
            && (b.IsClean() ==> a.IsClean())
  {
    TotalMonotone(Scores(s), Scores(t));
    SeverityMonotone(TotalOf(Scores(s)), TotalOf(Scores(t)));
  }

  lemma {:induction false} TotalMonotone(xs: seq<int>, ys: seq<int>)
    requires multiset(xs) <= multiset(ys) && NonNegative(ys)
    ensures 0 <= TotalOf(xs) <= TotalOf(ys) <= SCORE_CAP
  {
    SumMonotone(xs, ys);
    SubsetNonNegative(xs, ys);
    SumNonNegative(xs);
  }

  lemma {:induction false} SeverityMonotone(x: int, y: int)
    requires x <= y
    ensures Rank(SeverityOf(x)) <= Rank(SeverityOf(y))
  {}

  lemma {:induction false} SubsetNonNegative(xs: seq<int>, ys: seq<int>)
    requires multiset(xs) <= multiset(ys) && NonNegative(ys)
    ensures NonNegative(xs)
  {
    forall i | 0 <= i < |xs|
      ensures xs[i] >= 0
    {
      assert xs[i] in multiset(xs);
      assert xs[i] in ys;
    }
  }

  /** The total and the severity depend only on which scores were raised, not on order or names. */
  lemma {:induction false} TotalIsOrderFree(s: seq<Signal>, t: seq<Signal>, f: int)
    requires multiset(Scores(s)) == multiset(Scores(t)) && NonNegative(Scores(s)) && NonNegative(Scores(t))
    ensures var a, b := FromSignals(s, f), FromSignals(t, f);
            a.total == b.total && a.severity == b.severity
  {
    SumMonotone(Scores(s), Scores(t));
    SumMonotone(Scores(t), Scores(s));
  }

  /** One signal that scores at least the clean threshold makes the whole packet non-clean. */
  lemma {:induction false} LoudSignalIsNotClean(s: seq<Signal>, k: nat, f: int)
    requires NonNegative(Scores(s)) && k < |s| && s[k].score >= THRESHOLD_INFO
    ensures !FromSignals(s, f).IsClean()
  {
    var one := [s[k]];
    assert Scores(one) == [Scores(s)[k]];
    assert Scores(s)[k] in multiset(Scores(s));
    MoreSignalsNeverScoreLess(one, s, f, f);
    assert SumOf(Scores(one)) == s[k].score + SumOf([]);
  }

  // --- The result as a whole ------------------------------------------------------------------------

  /** The total, in numbers: the sum of the scores, 10 more for two signals or more, and never above 100. */
  lemma {:induction false} TotalInNumbers(s: seq<Signal>, f: int)
    ensures FromSignals(s, f).total == Min(SumOf(Scores(s)) + (if |s| >= 2 then 10 else 0), 100)
    ensures FromSignals(s, f).flag == f
  {}

  /** The list in the result is the stable descending arrangement of the signals it was made from. */
  lemma {:induction false} ResultIsSorted(s: seq<Signal>, f: int)
    ensures var r := FromSignals(s, f).signals;
            Descending(r) && multiset(r) == multiset(s) && forall v :: Scoring(r, v) == Scoring(s, v)
  {
    SortIsStableDescendingPermutation(s);
  }

  /** The bands of severity, in numbers. */
  lemma {:induction false} SeverityBands(s: seq<Signal>, f: int)
    ensures var r := FromSignals(s, f);
            && (r.severity == Critical <==> r.total >= 95)
            && (r.severity == Alert <==> 85 <= r.total < 95)
            && (r.severity == Warning <==> 60 <= r.total < 85)
            && (r.severity == Info <==> r.total < 60)
            && (r.IsClean() <==> r.total < 30)
  {}
}
