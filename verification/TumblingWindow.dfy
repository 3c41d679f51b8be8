/**
 The counting discipline shared by the per-source byte/SYN counters and the per-source SYN/ACK
 counters: two counters that are cleared as soon as `span` seconds have passed since the window
 opened, then incremented.
 */
module TumblingWindow {
  datatype Window = Window(start: real, first: nat, second: nat)

  /** One observation: what it adds to each counter. */
  datatype Tick = Tick(now: real, first: nat, second: nat)

  datatype Counter = First | Second

  function Read(w: Window, c: Counter): nat {
    if c.First? then w.first else w.second
  }

  function Amount(t: Tick, c: Counter): nat {
    if c.First? then t.first else t.second
  }

  function Advance(w: Window, span: real, t: Tick): Window {
    var open := if t.now - w.start >= span then Window(t.now, 0, 0) else w;
    open.(first := open.first + t.first, second := open.second + t.second)
  }

  /** The window after observation `n` of a history; it is created by observation 0. */
  function Replay(span: real, h: seq<Tick>, n: nat): Window
    requires n < |h|
  {
    if n == 0 then Advance(Window(h[0].now, 0, 0), span, h[0])
    else Advance(Replay(span, h, n - 1), span, h[n])
  }

  predicate Ordered(h: seq<Tick>) {
    forall i, j :: 0 <= i <= j < |h| ==> h[i].now <= h[j].now
  }

  /** What observations `lo..hi` added to a counter. */
  function Sum(h: seq<Tick>, lo: nat, hi: nat, c: Counter): nat
    requires hi <= |h|
  {
    if lo >= hi then 0 else Sum(h, lo, hi - 1, c) + Amount(h[hi - 1], c)
  }

  lemma {:induction false} SumPrefix(h: seq<Tick>, g: seq<Tick>, lo: nat, hi: nat, c: Counter)
    requires hi <= |g| <= |h| && g == h[..|g|]
    ensures Sum(h, lo, hi, c) == Sum(g, lo, hi, c)
  {
    if lo < hi {
      SumPrefix(h, g, lo, hi - 1, c);
    }
  }

  /** Which observation opened the window that is current after observation `n`. */
  function OpenedBy(span: real, h: seq<Tick>, n: nat): (r: nat)
    requires n < |h|
    ensures r <= n
  {
    if n == 0 || h[n].now - Replay(span, h, n - 1).start >= span then n
    else OpenedBy(span, h, n - 1)
  }

  lemma {:induction false} SumSplit(h: seq<Tick>, lo: nat, mid: nat, hi: nat, c: Counter)
    requires lo <= mid <= hi <= |h|
    ensures Sum(h, lo, hi, c) == Sum(h, lo, mid, c) + Sum(h, mid, hi, c)
  {
    if mid < hi {
      SumSplit(h, lo, mid, hi - 1, c);
    }
  }

  /** The window depends only on the observations made so far. */
  lemma {:induction false} ReplayPrefix(span: real, h: seq<Tick>, g: seq<Tick>, n: nat)
    requires n < |h| <= |g| && h == g[..|h|]
    ensures Replay(span, h, n) == Replay(span, g, n)
  {
    if n > 0 {
      ReplayPrefix(span, h, g, n - 1);
    }
  }

  /** The counters hold exactly what arrived since the window opened, and a window is never older than `span`. */
  lemma {:induction false} WindowIsRecent(span: real, h: seq<Tick>, n: nat, c: Counter)
    requires span > 0.0 && n < |h|
    ensures var o := OpenedBy(span, h, n);
            var w := Replay(span, h, n);
            w.start == h[o].now && h[n].now - h[o].now < span && Read(w, c) == Sum(h, o, n + 1, c)
  {
    if n > 0 {
      WindowIsRecent(span, h, n - 1, c);
    }
  }

  /** Within one window, walking back over observations that add nothing finds one that added something. */
  lemma {:induction false} LastContributor(span: real, h: seq<Tick>, i: nat, n: nat, c: Counter)
    returns (k: nat)
    requires span > 0.0 && i <= n < |h| && OpenedBy(span, h, n) <= i
    requires Sum(h, i, n + 1, c) > 0
    ensures i <= k <= n && Amount(h[k], c) > 0
    ensures Read(Replay(span, h, k), c) >= Sum(h, i, n + 1, c)
  {
    if Amount(h[n], c) > 0 {
      k := n;
      WindowIsRecent(span, h, n, c);
      SumSplit(h, OpenedBy(span, h, n), i, n + 1, c);
    } else {
      k := LastContributor(span, h, i, n - 1, c);
    }
  }

  /** Two windows cannot both open within a stretch shorter than `span`. */
  lemma {:induction false} OpenedAfresh(span: real, h: seq<Tick>, i: nat, n: nat)
    requires span > 0.0 && Ordered(h) && i < n < |h|
    requires h[n].now - h[i].now < span
    requires i < OpenedBy(span, h, n)
    ensures OpenedBy(span, h, OpenedBy(span, h, n) - 1) <= i
  {
    if OpenedBy(span, h, n) == n {
      WindowIsRecent(span, h, n - 1, First);
    } else {
      OpenedAfresh(span, h, i, n - 1);
    }
  }

  /**
   A stretch shorter than `span` meets at most two windows, so one observation in it that adds to
   the counter finds the counter at no less than half of what the stretch carried.
   */
  lemma {:induction false} HalfIsSeen(span: real, h: seq<Tick>, i: nat, n: nat, c: Counter)
    requires span > 0.0 && Ordered(h) && i <= n < |h|
    requires h[n].now - h[i].now < span
    requires Sum(h, i, n + 1, c) > 0
    ensures exists k :: i <= k <= n && Amount(h[k], c) > 0
                        && 2 * Read(Replay(span, h, k), c) >= Sum(h, i, n + 1, c)
  {
    var r := OpenedBy(span, h, n);
    if r <= i {
      var k := LastContributor(span, h, i, n, c);
    } else {
      SumSplit(h, i, r, n + 1, c);
      if Sum(h, r, n + 1, c) >= Sum(h, i, r, c) {
        var k := LastContributor(span, h, r, n, c);
      } else {
        OpenedAfresh(span, h, i, n);
        var k := LastContributor(span, h, i, r - 1, c);
      }
    }
  }
}
