/** The bounded drop-oldest queue between the capture thread and the analyzer. */
module RingBuffer {
  import opened Types

  datatype Ring<T> = Ring(buf: seq<T>, cap: nat, dropped: nat, closed: bool)

  /** Drop the oldest item if the buffer is full, then append. An empty front cannot be dropped, only counted. */
  function Push<T>(r: Ring<T>, item: T): Ring<T> {
    if |r.buf| == r.cap then
      r.(buf := (if r.buf == [] then [] else r.buf[1..]) + [item], dropped := r.dropped + 1)
    else r.(buf := r.buf + [item])
  }

  /** Remove the `max` oldest items, or as many as there are. */
  function Take<T>(r: Ring<T>, max: nat): Ring<T> {
    r.(buf := r.buf[Min(max, |r.buf|)..])
  }

  /** What one pass through the critical section of a blocking pop finds. */
  datatype Popped<T> = Item(value: T) | Finished | MustWait

  class RingBuffer<T> {
    var buf: seq<T>
    const cap: nat
    var dropped: nat
    var closed: bool
    ghost var ops: seq<Op<T>>

    ghost function Snapshot(): Ring<T>
      reads this
    {
      Ring(buf, cap, dropped, closed)
    }

    ghost predicate Valid()
      reads this
    {
      Snapshot() == Replay(cap, ops).(closed := closed)
    }

    constructor (cap: nat)
      ensures Valid() && Snapshot() == Ring([], cap, 0, false) && ops == []
    {
      this.cap := cap;
      buf, dropped, closed, ops := [], 0, false, [];
    }

    method PushItem(item: T) returns (lost: nat)
      requires Valid()
      modifies this
      ensures Valid() && Snapshot() == Push(old(Snapshot()), item) && lost == dropped
      ensures ops == old(ops) + [Pushing(item)]
    {
      if |buf| == cap {
        if buf != [] {
          buf := buf[1..];
        }
        dropped := dropped + 1;
      }
      buf := buf + [item];
      ops := ops + [Pushing(item)];
      assert Init(ops) == old(ops);
      return dropped;
    }

    /** One pass of `pop_blocking` under the lock; the caller waits on the condition variable if told to. */
    method PopOrWait() returns (r: Popped<T>)
      requires Valid()
      modifies this
      ensures Valid()
      ensures old(buf) != [] ==>
                r == Item(old(buf)[0]) && Snapshot() == Take(old(Snapshot()), 1) && ops == old(ops) + [Taking(1)]
                && Handed(cap, ops) == old(Handed(cap, ops)) + [r.value]
      ensures old(buf) == [] ==>
                r == (if closed then Finished else MustWait) && Snapshot() == old(Snapshot()) && ops == old(ops)
    {
      if buf != [] {
        r := Item(buf[0]);
        buf := buf[1..];
        ops := ops + [Taking(1)];
        assert Init(ops) == old(ops);
      } else if closed {
        r := Finished;
      } else {
        r := MustWait;
      }
    }

    method DrainBatch(max: nat) returns (batch: seq<T>)
      requires Valid()
      modifies this
      ensures Valid() && |batch| == Min(max, |old(buf)|) && old(buf) == batch + buf
      ensures Snapshot() == Take(old(Snapshot()), max) && ops == old(ops) + [Taking(max)]
      ensures Handed(cap, ops) == old(Handed(cap, ops)) + batch
    {
      var count := Min(max, |buf|);
      batch := buf[..count];
      buf := buf[count..];
      ops := ops + [Taking(max)];
      assert Init(ops) == old(ops);
    }

    method Close()
      requires Valid()
      modifies `closed
      ensures Valid() && Snapshot() == old(Snapshot()).(closed := true)
    {
      closed := true;
    }
  }

  // --- The buffer against its log ----------------------------------------------------------------

  datatype Op<T> = Pushing(item: T) | Taking(max: nat)

  function Apply<T>(r: Ring<T>, op: Op<T>): Ring<T> {
    match op
    case Pushing(item) => Push(r, item)
    case Taking(max) => Take(r, max)
  }

  function Replay<T>(cap: nat, ops: seq<Op<T>>): Ring<T> {
    if ops == [] then Ring([], cap, 0, false) else Apply(Replay(cap, Init(ops)), Last(ops))
  }

  /** An item pushed as number `index` was dropped by push number `by`. */
  datatype Drop = Drop(index: nat, cause: nat)

  /** Everything pushed, and by push number which of it was taken and which dropped, each in order. */
  datatype Ledger<T> = Ledger(pushed: seq<T>, taken: seq<nat>, drops: seq<Drop>)

  function Upto(from: nat, to: nat): (r: seq<nat>)
    requires from <= to
    ensures |r| == to - from && forall i :: 0 <= i < |r| ==> r[i] == from + i
  {
    seq(to - from, i requires 0 <= i < to - from => from + i)
  }

  /** Booking one operation, by push numbers alone. */
  function Book<T>(l: Ledger<T>, held: nat, cap: nat, op: Op<T>): Ledger<T> {
    var front := Max(|l.pushed| - held, 0);
    match op
    case Pushing(item) =>
      Ledger(l.pushed + [item], l.taken, if held == cap then l.drops + [Drop(front, |l.pushed|)] else l.drops)
    case Taking(max) => l.(taken := l.taken + Upto(front, front + Min(max, held)))
  }

  function Account<T>(cap: nat, ops: seq<Op<T>>): Ledger<T> {
    if ops == [] then Ledger([], [], [])
    else Book(Account(cap, Init(ops)), |Replay(cap, Init(ops)).buf|, cap, Last(ops))
  }

  predicate Increasing(s: seq<nat>) {
    forall i, j :: 0 <= i < j < |s| ==> s[i] < s[j]
  }

  predicate DropsIncrease(s: seq<Drop>) {
    forall i, j :: 0 <= i < j < |s| ==> s[i].index < s[j].index
  }

  ghost predicate IsDropped(l: Ledger, i: nat) {
    exists d :: d in l.drops && d.index == i
  }

  /**
   The books balance: the buffer is within capacity and is the contiguous tail of what was pushed;
   every earlier push was either taken or dropped, never both; both happened in push order; and a
   drop happened exactly when `cap` later pushes, the dropping one included, had followed.
   */
  ghost predicate Balanced<T>(r: Ring<T>, l: Ledger<T>) {
    var front := |l.pushed| - |r.buf|;
    && |r.buf| <= r.cap
    && front >= 0 && r.buf == l.pushed[front..]
    && |l.taken| + |l.drops| == front && r.dropped == |l.drops|
    && Increasing(l.taken) && DropsIncrease(l.drops)
    && (forall k :: 0 <= k < |l.taken| ==> l.taken[k] < front)
    && (forall k :: 0 <= k < |l.drops| ==> l.drops[k].index < front && l.drops[k].cause - l.drops[k].index == r.cap)
    && (forall i: nat :: i < front ==> (i in l.taken <==> !IsDropped(l, i)))
  }

  lemma {:induction false} PushBalances<T>(r: Ring<T>, l: Ledger<T>, item: T)
    requires r.cap >= 1 && Balanced(r, l)
    ensures Balanced(Push(r, item), Book(l, |r.buf|, r.cap, Pushing(item)))
  {
    var front := |l.pushed| - |r.buf|;
    var l' := Book(l, |r.buf|, r.cap, Pushing(item));
    if |r.buf| == r.cap {
      assert l'.drops[|l.drops|] == Drop(front, |l.pushed|);
      forall i: nat | i < front + 1
        ensures i in l'.taken <==> !IsDropped(l', i)
      {
        DroppedMore(l, l', Drop(front, |l.pushed|), i);
      }
    } else {
      forall i: nat | i < front
        ensures i in l'.taken <==> !IsDropped(l', i)
      {
        assert IsDropped(l', i) <==> IsDropped(l, i);
      }
    }
  }

  lemma {:induction false} DroppedMore<T>(l: Ledger<T>, l': Ledger<T>, d: Drop, i: nat)
    requires l'.drops == l.drops + [d]
    ensures IsDropped(l', i) <==> IsDropped(l, i) || d.index == i
  {
    if IsDropped(l, i) {
      var x :| x in l.drops && x.index == i;
      assert x in l'.drops;
    }
    assert d in l'.drops;
  }

  lemma {:induction false} TakeBalances<T>(r: Ring<T>, l: Ledger<T>, max: nat)
    requires Balanced(r, l)
    ensures Balanced(Take(r, max), Book(l, |r.buf|, r.cap, Taking(max)))
  {
    var front, n := |l.pushed| - |r.buf|, Min(max, |r.buf|);
    var l' := Book(l, |r.buf|, r.cap, Taking(max));
    assert l'.taken == l.taken + Upto(front, front + n);
    forall i: nat | i < front + n
      ensures i in l'.taken <==> !IsDropped(l', i)
    {
      assert IsDropped(l', i) <==> IsDropped(l, i);
      if i >= front {
        assert l'.taken[|l.taken| + i - front] == i;
      } else {
        assert i in l'.taken <==> i in l.taken;
      }
    }
  }

  /** Over every run of a ring of capacity at least one, the books balance. */
  lemma {:induction false} EveryRunBalances<T>(cap: nat, ops: seq<Op<T>>)
    requires cap >= 1
    ensures Balanced(Replay(cap, ops), Account(cap, ops)) && Replay(cap, ops).cap == cap
  {
    if ops != [] {
      EveryRunBalances(cap, Init(ops));
      var r, l := Replay(cap, Init(ops)), Account(cap, Init(ops));
      match Last(ops) {
        case Pushing(item) => PushBalances(r, l, item);
        case Taking(max) => TakeBalances(r, l, max);
      }
    }
  }

  /** The items pushed over a run. */
  function PushedItems<T>(ops: seq<Op<T>>): seq<T> {
    if ops == [] then []
    else PushedItems(Init(ops)) + if Last(ops).Pushing? then [Last(ops).item] else []
  }

  /** The items handed out over a run: what each taking removed from the buffer. */
  function Handed<T>(cap: nat, ops: seq<Op<T>>): seq<T> {
    if ops == [] then []
    else
      var r := Replay(cap, Init(ops));
      Handed(cap, Init(ops)) + if Last(ops).Taking? then r.buf[..Min(Last(ops).max, |r.buf|)] else []
  }

  predicate InRange(numbers: seq<nat>, bound: nat) {
    forall k :: 0 <= k < |numbers| ==> numbers[k] < bound
  }

  function Picked<T>(items: seq<T>, numbers: seq<nat>): (r: seq<T>)
    requires InRange(numbers, |items|)
    ensures |r| == |numbers| && forall k :: 0 <= k < |r| ==> r[k] == items[numbers[k]]
  {
    seq(|numbers|, k requires 0 <= k < |numbers| => items[numbers[k]])
  }

  lemma {:induction false} PickStretch<T>(items: seq<T>, numbers: seq<nat>, from: nat, to: nat)
    requires InRange(numbers, |items|) && from <= to <= |items|
    ensures InRange(numbers + Upto(from, to), |items|)
    ensures Picked(items, numbers + Upto(from, to)) == Picked(items, numbers) + items[from..to]
  {}

  lemma {:induction false} LedgerHoldsPushes<T>(cap: nat, ops: seq<Op<T>>)
    ensures Account(cap, ops).pushed == PushedItems(ops)
  {
    if ops != [] {
      LedgerHoldsPushes(cap, Init(ops));
    }
  }

  /** The part of the balance that says which pushes are in the buffer and which are not. */
  predicate TailHeld<T(==)>(r: Ring<T>, l: Ledger<T>) {
    && |r.buf| <= |l.pushed| && r.buf == l.pushed[|l.pushed| - |r.buf|..]
    && InRange(l.taken, |l.pushed| - |r.buf|) && Increasing(l.taken)
  }

  lemma {:induction false} BalancedHoldsTail<T>(r: Ring<T>, l: Ledger<T>)
    requires Balanced(r, l)
    ensures TailHeld(r, l)
  {}

  lemma {:induction false} EveryRunHoldsTail<T>(cap: nat, ops: seq<Op<T>>)
    requires cap >= 1
    ensures TailHeld(Replay(cap, ops), Account(cap, ops))
  {
    EveryRunBalances(cap, ops);
    BalancedHoldsTail(Replay(cap, ops), Account(cap, ops));
  }

  lemma {:induction false} WiderRange(numbers: seq<nat>, bound: nat, wider: nat)
    requires InRange(numbers, bound) && bound <= wider
    ensures InRange(numbers, wider)
  {}

  lemma {:induction false} HandedByTaking<T>(r: Ring<T>, l: Ledger<T>, max: nat, handed: seq<T>)
    requires TailHeld(r, l) && InRange(l.taken, |l.pushed|) && handed == Picked(l.pushed, l.taken)
    ensures var l' := Book(l, |r.buf|, r.cap, Taking(max));
            InRange(l'.taken, |l'.pushed|) && handed + r.buf[..Min(max, |r.buf|)] == Picked(l'.pushed, l'.taken)
  {
    var front, n := |l.pushed| - |r.buf|, Min(max, |r.buf|);
    PickStretch(l.pushed, l.taken, front, front + n);
    assert r.buf[..n] == l.pushed[front..front + n];
  }

  lemma {:induction false} PickFromMore<T>(items: seq<T>, more: seq<T>, numbers: seq<nat>)
    requires InRange(numbers, |items|) && InRange(numbers, |items + more|)
    ensures Picked(items + more, numbers) == Picked(items, numbers)
  {}

  /** The items handed out are the pushed items whose numbers the ledger has as taken. */
  lemma {:induction false} HandedAreTaken<T>(cap: nat, ops: seq<Op<T>>)
    requires cap >= 1
    ensures var l := Account(cap, ops);
            InRange(l.taken, |l.pushed|) && Handed(cap, ops) == Picked(l.pushed, l.taken)
  {
    if ops != [] {
      var r, l := Replay(cap, Init(ops)), Account(cap, Init(ops));
      HandedAreTaken(cap, Init(ops));
      match Last(ops) {
        case Taking(max) =>
          EveryRunHoldsTail(cap, Init(ops));
          HandedByTaking(r, l, max, Handed(cap, Init(ops)));
        case Pushing(item) =>
          WiderRange(l.taken, |l.pushed|, |l.pushed + [item]|);
          PickFromMore(l.pushed, [item], l.taken);
      }
    }
  }

  lemma {:induction false} TailComesLast(taken: seq<nat>, from: nat, to: nat)
    requires from <= to && InRange(taken, from) && Increasing(taken)
    ensures Increasing(taken + Upto(from, to)) && InRange(taken + Upto(from, to), to)
  {}

  /**
   What was handed out followed by what is buffered is an order-preserving selection of what was pushed,
   by the increasing push numbers the ledger keeps.
   */
  lemma {:induction false} TakenThenBufferedInPushOrder<T>(cap: nat, ops: seq<Op<T>>)
    requires cap >= 1
    ensures var r, pushed := Replay(cap, ops), PushedItems(ops);
            |r.buf| <= |pushed|
            && var numbers := Account(cap, ops).taken + Upto(|pushed| - |r.buf|, |pushed|);
            && Increasing(numbers) && InRange(numbers, |pushed|)
            && Handed(cap, ops) + r.buf == Picked(pushed, numbers)
  {
    LedgerHoldsPushes(cap, ops);
    EveryRunHoldsTail(cap, ops);
    HandedAreTaken(cap, ops);
    TailIsSelected(Replay(cap, ops), Account(cap, ops), Handed(cap, ops));
  }

  lemma {:induction false} TailIsSelected<T>(r: Ring<T>, l: Ledger<T>, handed: seq<T>)
    requires TailHeld(r, l) && InRange(l.taken, |l.pushed|) && handed == Picked(l.pushed, l.taken)
    ensures var numbers := l.taken + Upto(|l.pushed| - |r.buf|, |l.pushed|);
            && Increasing(numbers) && InRange(numbers, |l.pushed|) && handed + r.buf == Picked(l.pushed, numbers)
  {
    var front := |l.pushed| - |r.buf|;
    TailComesLast(l.taken, front, |l.pushed|);
    PickStretch(l.pushed, l.taken, front, |l.pushed|);
  }

  function Pushes<T>(items: seq<T>): (r: seq<Op<T>>)
    ensures |r| == |items| && forall i :: 0 <= i < |r| ==> r[i] == Pushing(items[i])
  {
    seq(|items|, i requires 0 <= i < |items| => Pushing(items[i]))
  }

  /** A ring of capacity zero is not bounded at all: it drops nothing and keeps every push. */
  lemma {:induction false} ZeroCapacityKeepsAll<T>(items: seq<T>)
    ensures Replay(0, Pushes(items)).buf == items
    ensures Replay(0, Pushes(items)).cap == 0
  {
    if items != [] {
      ZeroCapacityKeepsAll(Init(items));
      assert Init(Pushes(items)) == Pushes(Init(items));
    }
  }

  /** The bound holds over every run exactly for capacities of at least one. */
  lemma {:induction false} BoundedIffCapacityPositive(cap: nat)
    ensures cap >= 1 <==> forall ops: seq<Op<int>> :: |Replay(cap, ops).buf| <= cap
  {
    if cap >= 1 {
      forall ops: seq<Op<int>>
        ensures |Replay(cap, ops).buf| <= cap
      {
        EveryRunBalances(cap, ops);
      }
    } else {
      ZeroCapacityKeepsAll([0]);
      assert |Replay(cap, Pushes([0])).buf| > cap;
    }
  }
}
