/**
 A sliding set of values: a value is stored with the time it was first seen, is not refreshed while
 it is stored, and is evicted `window` seconds after that time.
 */
module SlidingSet {
  import opened Types

  datatype Entry = Entry(val: u16, at: real)

  /** Eviction: keep, in order, the entries younger than `window`. */
  function Retain(entries: seq<Entry>, window: real, now: real): (r: seq<Entry>)
    ensures forall e :: e in r <==> e in entries && now - e.at < window
  {
    if entries == [] then []
    else if now - entries[0].at < window then [entries[0]] + Retain(entries[1..], window, now)
    else Retain(entries[1..], window, now)
  }

  predicate Holds(entries: seq<Entry>, val: u16) {
    exists e :: e in entries && e.val == val
  }

  function Insert(entries: seq<Entry>, window: real, val: u16, now: real): seq<Entry> {
    var live := Retain(entries, window, now);
    if Holds(live, val) then live else live + [Entry(val, now)]
  }

  /** The set built by a whole history of insertions. */
  function Replay(window: real, h: seq<Entry>): seq<Entry> {
    if h == [] then [] else Insert(Replay(window, Init(h)), window, Last(h).val, Last(h).at)
  }

  /** Time does not run backwards in a history of observations. */
  predicate Ordered(h: seq<Entry>) {
    forall i, j :: 0 <= i <= j < |h| ==> h[i].at <= h[j].at
  }

  predicate Distinct(entries: seq<Entry>) {
    forall i, j :: 0 <= i < j < |entries| ==> entries[i].val != entries[j].val
  }

  function Values(entries: seq<Entry>): set<u16> {
    set e | e in entries :: e.val
  }

  // --- Eviction ----------------------------------------------------------------------------------

  /** An earlier eviction is absorbed by a later one. */
  lemma {:induction false} RetainAbsorbs(entries: seq<Entry>, window: real, t: real, now: real)
    requires t <= now
    ensures Retain(Retain(entries, window, t), window, now) == Retain(entries, window, now)
  {
    if entries != [] {
      RetainAbsorbs(entries[1..], window, t, now);
    }
  }

  lemma {:induction false} RetainDistinct(entries: seq<Entry>, window: real, now: real)
    requires Distinct(entries)
    ensures Distinct(Retain(entries, window, now))
  {
    if entries != [] {
      RetainDistinct(entries[1..], window, now);
      forall e | e in Retain(entries[1..], window, now)
        ensures e.val != entries[0].val
      {
        var k :| 0 <= k < |entries[1..]| && entries[1..][k] == e;
        assert entries[k + 1] == e;
      }
    }
  }

  /** An insertion sees only what is still live, so it makes no difference whether the rest was evicted before. */
  lemma {:induction false} InsertSeesLive(a: seq<Entry>, b: seq<Entry>, window: real, val: u16, now: real)
    requires Retain(a, window, now) == Retain(b, window, now)
    ensures Insert(a, window, val, now) == Insert(b, window, val, now)
  {}

  lemma {:induction false} InsertKeepsDistinct(entries: seq<Entry>, window: real, val: u16, now: real)
    requires Distinct(entries)
    ensures Distinct(Insert(entries, window, val, now))
  {
    RetainDistinct(entries, window, now);
    var live := Retain(entries, window, now);
    if !Holds(live, val) {
      forall i | 0 <= i < |live|
        ensures live[i].val != val
      {
        assert live[i] in live;
      }
    }
  }

  // --- The set against its history ---------------------------------------------------------------

  /**
   One value on its own is a latch: an observation sets it unless it was set less than `window`
   before. This definition knows nothing of the other values or of any list.
   */
  function Latch(window: real, h: seq<Entry>, val: u16): Option<real> {
    if h == [] then None
    else
      var prior := Latch(window, Init(h), val);
      if Last(h).val == val && (prior.None? || Last(h).at - prior.value >= window) then Some(Last(h).at)
      else prior
  }

  /** The list holds exactly the latches still set, each value once. */
  lemma {:induction false} EntriesAreLatches(window: real, h: seq<Entry>)
    requires window > 0.0 && Ordered(h) && h != []
    ensures Distinct(Replay(window, h))
    ensures forall e :: e in Replay(window, h) <==>
                        Latch(window, h, e.val) == Some(e.at) && Last(h).at - e.at < window
  {
    var prior, x := Init(h), Last(h);
    if prior != [] {
      EntriesAreLatches(window, prior);
      assert Last(prior).at <= x.at;
    }
    InsertKeepsDistinct(Replay(window, prior), window, x.val, x.at);
    var live := Retain(Replay(window, prior), window, x.at);
    forall e
      ensures e in live <==> Latch(window, prior, e.val) == Some(e.at) && x.at - e.at < window
    {}
    assert Holds(live, x.val) <==>
           (Latch(window, prior, x.val).Some? && x.at - Latch(window, prior, x.val).value < window) by {
      if Latch(window, prior, x.val).Some? && x.at - Latch(window, prior, x.val).value < window {
        assert Entry(x.val, Latch(window, prior, x.val).value) in live;
      }
    }
  }

  /** A set latch carries the time of a genuine observation of its value. */
  lemma {:induction false} LatchIsGenuine(window: real, h: seq<Entry>, val: u16)
    ensures Latch(window, h, val).Some? ==> Entry(val, Latch(window, h, val).value) in h
  {
    if h != [] {
      LatchIsGenuine(window, Init(h), val);
    }
  }

  /** An observed value has a latch, set no more than `window` before its latest observation. */
  lemma {:induction false} LatchCoversLatest(window: real, h: seq<Entry>, val: u16, t: real)
    requires window > 0.0 && Ordered(h) && Entry(val, t) in h
    ensures Latch(window, h, val).Some? && t - Latch(window, h, val).value < window
  {
    var prior, x := Init(h), Last(h);
    if Entry(val, t) in prior {
      LatchCoversLatest(window, prior, val, t);
      assert h == prior + [x];
      assert t <= x.at;
    }
  }

  /** The distinct values observed after `from` and up to `to`. */
  function SeenBetween(h: seq<Entry>, from: real, to: real): set<u16> {
    set e | e in h && from < e.at <= to :: e.val
  }

  /** The distinct values seen in the window that ends with the last observation. */
  function Recent(window: real, h: seq<Entry>): set<u16>
    requires h != []
  {
    SeenBetween(h, Last(h).at - window, Last(h).at)
  }

  /** The distinct values seen in the window before that one. */
  function Earlier(window: real, h: seq<Entry>): set<u16>
    requires h != []
  {
    SeenBetween(h, Last(h).at - 2.0 * window, Last(h).at - window)
  }

  /**
   The count is at most the number of distinct values seen in the last window, and at least the
   number of those that were not seen in the window before it.
   */
  lemma {:induction false} CountIsSandwiched(window: real, h: seq<Entry>)
    requires window > 0.0 && Ordered(h) && h != []
    ensures |Recent(window, h) - Earlier(window, h)| <= |Replay(window, h)| <= |Recent(window, h)|
  {
    EntriesAreLatches(window, h);
    DistinctCount(Replay(window, h));
    HeldAreRecent(window, h);
    RecentAreHeld(window, h);
    SubsetCard(Values(Replay(window, h)), Recent(window, h));
    SubsetCard(Recent(window, h) - Earlier(window, h), Values(Replay(window, h)));
  }

  lemma {:induction false} HeldAreRecent(window: real, h: seq<Entry>)
    requires window > 0.0 && Ordered(h) && h != []
    ensures Values(Replay(window, h)) <= Recent(window, h)
  {
    EntriesAreLatches(window, h);
    forall e | e in Replay(window, h)
      ensures e.val in Recent(window, h)
    {
      HeldIsRecent(window, h, e);
    }
  }

  lemma {:induction false} RecentAreHeld(window: real, h: seq<Entry>)
    requires window > 0.0 && Ordered(h) && h != []
    ensures Recent(window, h) - Earlier(window, h) <= Values(Replay(window, h))
  {
    forall v | v in Recent(window, h)
               && v !in Earlier(window, h)
      ensures v in Values(Replay(window, h))
    {
      RecentIsHeld(window, h, v);
    }
  }

  lemma {:induction false} HeldIsRecent(window: real, h: seq<Entry>, e: Entry)
    requires window > 0.0 && Ordered(h) && h != []
    requires Latch(window, h, e.val) == Some(e.at) && Last(h).at - e.at < window
    ensures e.val in Recent(window, h)
  {
    LatchIsGenuine(window, h, e.val);
    var k :| 0 <= k < |h| && h[k] == e;
    assert h[k].at <= h[|h| - 1].at;
  }

  lemma {:induction false} RecentIsHeld(window: real, h: seq<Entry>, v: u16)
    requires window > 0.0 && Ordered(h) && h != []
    requires v in Recent(window, h)
    requires v !in Earlier(window, h)
    ensures v in Values(Replay(window, h))
  {
    var now := Last(h).at;
    var e :| e in h && now - window < e.at <= now && e.val == v;
    LatchCoversLatest(window, h, v, e.at);
    LatchIsGenuine(window, h, v);
    var s := Entry(v, Latch(window, h, v).value);
    assert s in h && now - 2.0 * window < s.at;
    assert now - window < s.at;
    EntriesAreLatches(window, h);
    assert s in Replay(window, h);
  }

  lemma {:induction false} DistinctCount(entries: seq<Entry>)
    requires Distinct(entries)
    ensures |Values(entries)| == |entries|
  {
    if entries != [] {
      var rest, x := Init(entries), Last(entries);
      DistinctCount(rest);
      assert Values(entries) == Values(rest) + {x.val};
      assert x.val !in Values(rest);
    } else {
      assert Values(entries) == {};
    }
  }
}
