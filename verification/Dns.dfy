/** DNS query names: extraction from the wire form, and the per-name and per-payload heuristics. */
module Dns {
  import opened Types
  import opened Score

  /** A name or a label, as the UTF-8 bytes of the string that holds it. */
  type Text = seq<byte>

  /**
   The library functions the detector calls, left arbitrary: lossy UTF-8 decoding, lowercasing, and
   whether the Shannon entropy of a part exceeds the threshold.
   */
  datatype Library = Library(decode: Text -> Text, lower: Text -> Text, highEntropy: Text -> bool)

  const DOT: byte := 46
  const HEADER := 12
  const MAX_LABEL_LEN := 40
  const MAX_FQDN_LEN := 128
  const TUNNEL_BYTES := 400

  const SUSPICIOUS_TLDS: set<string> := {
    "xyz", "top", "click", "link", "work", "date", "review", "stream", "gdn", "racing", "download",
    "win", "bid", "loan", "online", "science", "party", "trade"}

  predicate Spells(t: Text, s: string) {
    |t| == |s| && forall i :: 0 <= i < |s| ==> t[i] == s[i] as int
  }

  predicate SuspiciousTld(lib: Library, part: Text) {
    exists s :: s in SUSPICIOUS_TLDS && Spells(lib.lower(part), s)
  }

  // --- Names on the wire ---------------------------------------------------------------------------

  /** A zero length ends a name, and so does a compression pointer, which is not followed. */
  predicate Ends(len: byte) {
    len == 0 || len >= 0xC0
  }

  /** The raw labels from `pos` up to the end of the name, or nothing if the payload stops before that. */
  function Labels(p: seq<byte>, pos: nat): Option<seq<Text>>
    decreases |p| - pos
  {
    if pos >= |p| then None
    else if Ends(p[pos]) then Some([])
    else
      var next := pos + 1 + p[pos];
      if next > |p| then None
      else
        var rest := Labels(p, next);
        if rest.None? then None else Some([p[pos + 1..next]] + rest.value)
  }

  function Join(labels: seq<Text>): Text {
    if labels == [] then []
    else if |labels| == 1 then labels[0]
    else Join(Init(labels)) + [DOT] + Last(labels)
  }

  function Decoded(lib: Library, labels: seq<Text>): (r: seq<Text>)
    ensures |r| == |labels| && forall i :: 0 <= i < |r| ==> r[i] == lib.decode(labels[i])
  {
    seq(|labels|, i requires 0 <= i < |labels| => lib.decode(labels[i]))
  }

  /** The query name of a DNS payload. */
  function Extract(lib: Library, p: seq<byte>): (r: Option<Text>)
    ensures r.Some? ==> |p| >= HEADER
  {
    if |p| < HEADER || Be16(p[4], p[5]) == 0 then None
    else
      var labels := Labels(p, HEADER);
      if labels.None? || labels.value == [] then None else Some(Join(Decoded(lib, labels.value)))
  }

  function Prefixed(raw: seq<Text>, rest: Option<seq<Text>>): Option<seq<Text>> {
    if rest.None? then None else Some(raw + rest.value)
  }

  lemma {:induction false} ReadOneMore(p: seq<byte>, pos: nat, raw: seq<Text>)
    requires pos < |p| && !Ends(p[pos]) && pos + 1 + p[pos] <= |p|
    ensures var next := pos + 1 + p[pos];
            Prefixed(raw, Labels(p, pos)) == Prefixed(raw + [p[pos + 1..next]], Labels(p, next))
  {
    var next := pos + 1 + p[pos];
    if Labels(p, next).Some? {
      assert raw + ([p[pos + 1..next]] + Labels(p, next).value) == raw + [p[pos + 1..next]] + Labels(p, next).value;
    }
  }

  method ExtractQueryName(lib: Library, p: seq<byte>) returns (r: Option<Text>)
    ensures r == Extract(lib, p)
  {
    if |p| < 12 {
      return None;
    }
    if Be16(p[4], p[5]) == 0 {
      return None;
    }
    var pos := 12;
    var labels := [];
    ghost var raw := [];
    assert Prefixed(raw, Labels(p, pos)) == Labels(p, 12) by {
      assert Labels(p, 12).Some? ==> [] + Labels(p, 12).value == Labels(p, 12).value;
    }
    while true
      invariant 12 <= pos <= |p|
      invariant labels == Decoded(lib, raw)
      invariant Prefixed(raw, Labels(p, pos)) == Labels(p, 12)
      decreases |p| - pos
    {
      if pos >= |p| {
        return None;
      }
      var len := p[pos];
      if len == 0 || len >= 0xC0 {
        break;
      }
      pos := pos + 1;
      if pos + len > |p| {
        return None;
      }
      ReadOneMore(p, pos - 1, raw);
      labels := labels + [lib.decode(p[pos..pos + len])];
      raw := raw + [p[pos..pos + len]];
      pos := pos + len;
    }
    assert raw + [] == raw;
    if labels == [] {
      return None;
    }
    return Some(Join(labels));
  }

  /** The wire form of a list of labels, without its terminator. */
  function Wire(labels: seq<Text>): seq<byte>
    requires Encodable(labels)
  {
    if labels == [] then [] else [|labels[0]| as byte] + labels[0] + Wire(labels[1..])
  }

  /** Every label has a length byte that does not end the name. */
  predicate Encodable(labels: seq<Text>) {
    forall i :: 0 <= i < |labels| ==> 1 <= |labels[i]| < 0xC0
  }

  /** Reading the wire form of some labels, properly ended, gives the labels. */
  lemma {:induction false} WireIsRead(before: seq<byte>, labels: seq<Text>, end: byte, rest: seq<byte>)
    requires Encodable(labels) && Ends(end)
    ensures Labels(before + Wire(labels) + [end] + rest, |before|) == Some(labels)
    decreases |labels|
  {
    var p := before + Wire(labels) + [end] + rest;
    if labels == [] {
      assert p[|before|] == end;
    } else {
      var n, first := |labels[0]|, labels[0];
      var before' := before + [n as byte] + first;
      assert p == before' + Wire(labels[1..]) + [end] + rest;
      WireIsRead(before', labels[1..], end, rest);
      assert p[|before|] == n;
      assert p[|before| + 1..|before'|] == first;
      assert [first] + labels[1..] == labels;
    }
  }

  /** Whatever labels are read, their wire form stands there, properly ended. */
  lemma {:induction false} ReadIsWire(p: seq<byte>, pos: nat, labels: seq<Text>)
    requires Labels(p, pos) == Some(labels)
    ensures Encodable(labels) && pos + |Wire(labels)| < |p|
    ensures p[pos..pos + |Wire(labels)|] == Wire(labels) && Ends(p[pos + |Wire(labels)|])
    decreases |p| - pos
  {
    if !Ends(p[pos]) {
      var next := pos + 1 + p[pos];
      var tail := Labels(p, next).value;
      ReadIsWire(p, next, tail);
      assert labels == [p[pos + 1..next]] + tail;
      assert labels[1..] == tail;
      var w := |Wire(tail)|;
      assert Wire(labels) == [p[pos]] + p[pos + 1..next] + Wire(tail);
      assert p[pos..next + w] == [p[pos]] + p[pos + 1..next] + p[next..next + w];
    }
  }

  // --- Splitting -----------------------------------------------------------------------------------

  /** `split('.')`: always at least one piece. */
  function Split(t: Text): (r: seq<Text>)
    ensures r != []
  {
    if t == [] then [[]]
    else
      var r := Split(Init(t));
      if Last(t) == DOT then r + [[]] else Init(r) + [Last(r) + [Last(t)]]
  }

  /** `trim_end_matches('.')`. */
  function TrimDots(t: Text): Text {
    if t != [] && Last(t) == DOT then TrimDots(Init(t)) else t
  }

  lemma {:induction false} SplitAppend(t: Text, part: Text)
    requires DOT !in part
    ensures Split(t + [DOT] + part) == Split(t) + [part]
  {
    if part == [] {
      assert t + [DOT] + part == t + [DOT];
      assert Init(t + [DOT]) == t;
    } else {
      SplitAppend(t, Init(part));
      assert Init(t + [DOT] + part) == t + [DOT] + Init(part);
      assert part == Init(part) + [Last(part)];
      assert Last(part) in part;
    }
  }

  lemma {:induction false} SplitOne(part: Text)
    requires DOT !in part
    ensures Split(part) == [part]
  {
    if part != [] {
      assert Last(part) in part;
      SplitOne(Init(part));
      assert Init(part) + [Last(part)] == part;
    }
  }

  predicate DotFree(labels: seq<Text>) {
    forall i :: 0 <= i < |labels| ==> DOT !in labels[i]
  }

  /** Splitting a joined name gives its labels back. */
  lemma {:induction false} SplitInvertsJoin(labels: seq<Text>)
    requires labels != [] && DotFree(labels)
    ensures Split(Join(labels)) == labels
  {
    if |labels| == 1 {
      SplitOne(labels[0]);
    } else {
      SplitInvertsJoin(Init(labels));
      SplitAppend(Join(Init(labels)), Last(labels));
    }
  }

  lemma {:induction false} JoinedNeedsNoTrim(labels: seq<Text>)
    requires labels != [] && DotFree(labels) && Last(labels) != []
    ensures TrimDots(Join(labels)) == Join(labels)
  {
    assert Last(Join(labels)) == Last(Last(labels));
    assert Last(Last(labels)) in Last(labels);
  }

  predicate Ascii(t: Text) {
    forall i :: 0 <= i < |t| ==> t[i] < 128
  }

  /** Decoding leaves ASCII alone. */
  ghost predicate KeepsAscii(lib: Library) {
    forall t: Text :: Ascii(t) ==> lib.decode(t) == t
  }

  /**
   Section 4.1.2 of RFC 1035, both ways: a query name in wire form is extracted as the dotted join
   of its labels, and trimming and splitting that gives back the labels the heuristics walk.
   */
  lemma {:induction false} NameRoundTrip(lib: Library, header: seq<byte>, labels: seq<Text>, rest: seq<byte>)
    requires KeepsAscii(lib)
    requires |header| == HEADER && Be16(header[4], header[5]) > 0
    requires labels != [] && Encodable(labels) && DotFree(labels)
    requires forall i :: 0 <= i < |labels| ==> Ascii(labels[i])
    ensures Extract(lib, header + Wire(labels) + [0] + rest) == Some(Join(labels))
    ensures Split(TrimDots(Join(labels))) == labels
  {
    WireIsRead(header, labels, 0, rest);
    var p := header + Wire(labels) + [0] + rest;
    assert p[4] == header[4] && p[5] == header[5];
    assert Decoded(lib, labels) == labels;
    SplitInvertsJoin(labels);
    JoinedNeedsNoTrim(labels);
  }

  /**
   Whatever is extracted stood in the payload: it is the join of decoded labels whose wire form, ended
   properly, follows the header.
   */
  lemma {:induction false} ExtractedNameWasThere(lib: Library, p: seq<byte>, name: Text)
    requires Extract(lib, p) == Some(name)
    ensures exists labels :: labels != [] && Encodable(labels)
              && HEADER + |Wire(labels)| < |p|
              && p[HEADER..HEADER + |Wire(labels)|] == Wire(labels)
              && Ends(p[HEADER + |Wire(labels)|])
              && name == Join(Decoded(lib, labels))
  {
    var labels := Labels(p, HEADER).value;
    ReadIsWire(p, HEADER, labels);
    assert labels != [] && name == Join(Decoded(lib, labels));
  }

  // --- Heuristics ----------------------------------------------------------------------------------

  predicate QuietLabel(lib: Library, part: Text) {
    |part| <= MAX_LABEL_LEN && !lib.highEntropy(part)
  }

  function LabelSignals(lib: Library, part: Text): (r: seq<Signal>)
    ensures r == [] <==> QuietLabel(lib, part)
  {
    (if |part| > MAX_LABEL_LEN then [Signal(DnsLongLabel, SCORE_DNS_ANOMALY)] else [])
    + (if lib.highEntropy(part) then [Signal(DnsHighEntropy, SCORE_DNS_ANOMALY)] else [])
  }

  function AllLabelSignals(lib: Library, labels: seq<Text>): seq<Signal> {
    if labels == [] then [] else AllLabelSignals(lib, Init(labels)) + LabelSignals(lib, Last(labels))
  }

  /** The signals raised by a name on its own; the top-level label is exempt from the label checks. */
  function NameSignals(lib: Library, fqdn: Text): seq<Signal> {
    var name := TrimDots(fqdn);
    var labels := Split(name);
    (if |name| > MAX_FQDN_LEN then [Signal(DnsLongFqdn, SCORE_DNS_ANOMALY)] else [])
    + (if SuspiciousTld(lib, Last(labels)) then [Signal(DnsSuspiciousTld, 15)] else [])
    + AllLabelSignals(lib, Init(labels))
  }

  method InspectName(lib: Library, fqdn: Text) returns (signals: seq<Signal>)
    ensures signals == NameSignals(lib, fqdn)
  {
    signals := [];
    var name := TrimDots(fqdn);
    if |name| > MAX_FQDN_LEN {
      signals := signals + [Signal(DnsLongFqdn, SCORE_DNS_ANOMALY)];
    }
    var labels := Split(name);
    if SuspiciousTld(lib, Last(labels)) {
      signals := signals + [Signal(DnsSuspiciousTld, 15)];
    }
    var labelled := InspectLabels(lib, labels[..|labels| - 1]);
    signals := signals + labelled;
  }

  method InspectLabels(lib: Library, labels: seq<Text>) returns (signals: seq<Signal>)
    ensures signals == AllLabelSignals(lib, labels)
  {
    signals := [];
    for i := 0 to |labels|
      invariant signals == AllLabelSignals(lib, labels[..i])
    {
      ghost var before := signals;
      if |labels[i]| > MAX_LABEL_LEN {
        signals := signals + [Signal(DnsLongLabel, SCORE_DNS_ANOMALY)];
      }
      if lib.highEntropy(labels[i]) {
        signals := signals + [Signal(DnsHighEntropy, SCORE_DNS_ANOMALY)];
      }
      assert signals == before + LabelSignals(lib, labels[i]);
      assert Init(labels[..i + 1]) == labels[..i];
    }
    assert labels[..|labels|] == labels;
  }

  /** A large response that carries answers. The header bytes read here exist because a name was extracted. */
  predicate LooksLikeTunnel(p: seq<byte>)
    requires |p| >= HEADER
  {
    p[2] >= 0x80 && Be16(p[6], p[7]) > 0 && |p| >= TUNNEL_BYTES
  }

  function PayloadSignals(lib: Library, p: seq<byte>): seq<Signal> {
    var name := Extract(lib, p);
    if name.None? then []
    else
      NameSignals(lib, name.value)
      + if LooksLikeTunnel(p) then [Signal(DnsTunnelLargeResponse, SCORE_DNS_ANOMALY + 5)] else []
  }

  method InspectPayload(lib: Library, p: seq<byte>) returns (signals: seq<Signal>)
    ensures signals == PayloadSignals(lib, p)
  {
    signals := [];
    var name := ExtractQueryName(lib, p);
    if name.None? {
      return;
    }
    var named := InspectName(lib, name.value);
    signals := signals + named;
    if |p| > 6 {
      var isResponse := p[2] >= 0x80;
      var ancount := Be16(p[6], p[7]);
      if isResponse && ancount > 0 && |p| >= TUNNEL_BYTES {
        signals := signals + [Signal(DnsTunnelLargeResponse, SCORE_DNS_ANOMALY + 5)];
      }
    }
  }

  // --- What each signal says -------------------------------------------------------------------------

  predicate OnlyDots(t: Text) {
    forall i :: 0 <= i < |t| ==> t[i] == DOT
  }

  /** Trimming takes the dots at the end, all of them and nothing else. */
  lemma {:induction false} TrimTakesDots(t: Text)
    ensures var r := TrimDots(t);
            && r <= t && OnlyDots(t[|r|..])
            && (r == [] || Last(r) != DOT)
  {
    if t != [] && Last(t) == DOT {
      var front := Init(t);
      TrimTakesDots(front);
      assert t[|TrimDots(t)|..] == front[|TrimDots(t)|..] + [DOT];
    }
  }

  /** Some label before the last has the property. */
  ghost predicate SomeLabel(labels: seq<Text>, holds: Text -> bool) {
    exists i :: 0 <= i < |labels| && holds(labels[i])
  }

  lemma {:induction false} LabelSignalsIff(lib: Library, labels: seq<Text>)
    ensures var s := AllLabelSignals(lib, labels);
            && (Signal(DnsLongLabel, 45) in s <==> SomeLabel(labels, part => |part| > 40))
            && (Signal(DnsHighEntropy, 45) in s <==> SomeLabel(labels, lib.highEntropy))
  {
    if labels != [] {
      var front, last := Init(labels), Last(labels);
      LabelSignalsIff(lib, front);
      SomeLabelMore(front, last, part => |part| > 40);
      SomeLabelMore(front, last, lib.highEntropy);
      assert front + [last] == labels;
    }
  }

  lemma {:induction false} SomeLabelMore(front: seq<Text>, last: Text, holds: Text -> bool)
    ensures SomeLabel(front + [last], holds) <==> SomeLabel(front, holds) || holds(last)
  {
    var labels := front + [last];
    if SomeLabel(front, holds) {
      var i :| 0 <= i < |front| && holds(front[i]);
      assert labels[i] == front[i];
    }
    if holds(last) {
      assert labels[|front|] == last;
    }
  }

  /** Which signals a name raises: one each for its length and its ending, one for each offending label. */
  lemma {:induction false} NameSignalsIff(lib: Library, fqdn: Text)
    ensures var s, name := NameSignals(lib, fqdn), TrimDots(fqdn);
            var labels := Split(name);
            && (Signal(DnsLongFqdn, 45) in s <==> |name| > 128)
            && (Signal(DnsSuspiciousTld, 15) in s <==> SuspiciousTld(lib, Last(labels)))
            && (Signal(DnsLongLabel, 45) in s <==> SomeLabel(Init(labels), part => |part| > 40))
            && (Signal(DnsHighEntropy, 45) in s <==> SomeLabel(Init(labels), lib.highEntropy))
  {
    var labels := Init(Split(TrimDots(fqdn)));
    LabelSignalsIff(lib, labels);
    LabelSignalsAreOfLabels(lib, labels);
  }

  lemma {:induction false} LabelSignalsAreOfLabels(lib: Library, labels: seq<Text>)
    ensures forall x :: x in AllLabelSignals(lib, labels) ==> x.name.DnsLongLabel? || x.name.DnsHighEntropy?
  {
    if labels != [] {
      LabelSignalsAreOfLabels(lib, Init(labels));
    }
  }

  /** The tunnel signal: a response that carries answers, of 400 bytes or more, to a query that has a name. */
  lemma {:induction false} TunnelIff(lib: Library, p: seq<byte>)
    ensures Signal(DnsTunnelLargeResponse, 50) in PayloadSignals(lib, p) <==>
            Extract(lib, p).Some? && p[2] / 0x80 == 1 && Be16(p[6], p[7]) > 0 && |p| >= 400
  {
    var name := Extract(lib, p);
    if name.Some? {
      NameSignalsScore(lib, name.value);
    }
  }

  /** No name is read from a short payload, one without questions, or one whose first name is empty or cut off. */
  lemma {:induction false} NoNameIff(lib: Library, p: seq<byte>)
    ensures Extract(lib, p).None? <==>
            |p| < 12 || (p[4] == 0 && p[5] == 0) || Labels(p, 12).None? || Ends(p[12])
  {}

  /** A name raises nothing exactly when it is short, ends well, and no other label is long or random. */
  lemma {:induction false} QuietNameIff(lib: Library, fqdn: Text)
    ensures var name := TrimDots(fqdn);
            var labels := Split(name);
            NameSignals(lib, fqdn) == [] <==>
            && |name| <= MAX_FQDN_LEN && !SuspiciousTld(lib, Last(labels))
            && forall i :: 0 <= i < |labels| - 1 ==> QuietLabel(lib, labels[i])
  {
    var labels := Split(TrimDots(fqdn));
    QuietLabelsIff(lib, Init(labels));
  }

  lemma {:induction false} QuietLabelsIff(lib: Library, labels: seq<Text>)
    ensures AllLabelSignals(lib, labels) == [] <==>
            forall i :: 0 <= i < |labels| ==> QuietLabel(lib, labels[i])
  {
    if labels != [] {
      var prior, last := Init(labels), Last(labels);
      QuietLabelsIff(lib, prior);
      NothingPlusNothing(AllLabelSignals(lib, prior), LabelSignals(lib, last));
      if AllLabelSignals(lib, labels) == [] {
        forall i | 0 <= i < |labels|
          ensures QuietLabel(lib, labels[i])
        {
          if i < |prior| {
            assert QuietLabel(lib, prior[i]);
          }
        }
      } else if AllLabelSignals(lib, prior) != [] {
        var i :| 0 <= i < |prior| && !QuietLabel(lib, prior[i]);
        assert !QuietLabel(lib, labels[i]);
      } else {
        assert !QuietLabel(lib, labels[|labels| - 1]);
      }
    }
  }

  lemma {:induction false} NothingPlusNothing(a: seq<Signal>, b: seq<Signal>)
    ensures a + b == [] <==> a == [] && b == []
  {
    assert |a + b| == |a| + |b|;
  }

  /** A signal about a name: 15 for a suspicious ending, 45 for anything else. */
  predicate IsNameSignal(s: Signal) {
    if s.name.DnsSuspiciousTld? then s.score == 15
    else (s.name.DnsLongFqdn? || s.name.DnsLongLabel? || s.name.DnsHighEntropy?) && s.score == SCORE_DNS_ANOMALY
  }

  predicate AreNameSignals(s: seq<Signal>) {
    forall i :: 0 <= i < |s| ==> IsNameSignal(s[i])
  }

  lemma {:induction false} NameSignalsScore(lib: Library, fqdn: Text)
    ensures AreNameSignals(NameSignals(lib, fqdn))
  {
    LabelSignalsScore(lib, Init(Split(TrimDots(fqdn))));
  }

  lemma {:induction false} LabelSignalsScore(lib: Library, labels: seq<Text>)
    ensures AreNameSignals(AllLabelSignals(lib, labels))
  {
    if labels != [] {
      LabelSignalsScore(lib, Init(labels));
    }
  }
}
