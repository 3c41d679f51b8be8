/**
 The ring buffer under its mutex and condition variable, for any number of producers, consumers and
 closers. One step is one critical section, one wait, one wakeup, or one `notify_all`.
 */
module Wakeups {
  import opened Types
  import opened RingBuffer

  type Thread = nat

  /** Where a thread stands with respect to `pop_blocking`. */
  datatype Consumer =
    | Outside   // not in the call
    | Entering  // called, about to take the lock
    | Waiting   // parked on the condition variable
    | Notified  // woken, about to take the lock again

  /** `closing` holds the threads between storing `closed` and calling `notify_all`. */
  datatype System<T> = System(ring: Ring<T>, consumers: map<Thread, Consumer>, closing: set<Thread>)

  datatype Step<T> =
    | PushStep(item: T, woken: Option<Thread>)
    | CallStep(thread: Thread)
    | EnterStep(thread: Thread)
    | SpuriousStep(thread: Thread)
    | TakeStep(max: nat)             // try_pop and drain_batch
    | CloseStoreStep(thread: Thread)
    | CloseNotifyStep(thread: Thread)

  function In(consumers: map<Thread, Consumer>, state: Consumer): (r: set<Thread>)
    ensures forall t :: t in r <==> t in consumers && consumers[t] == state
  {
    set t | t in consumers && consumers[t] == state
  }

  predicate Enabled<T>(s: System<T>, e: Step<T>) {
    match e
    case PushStep(_, woken) =>
      // notify_one wakes some waiting thread if there is one
      if woken.Some? then woken.value in In(s.consumers, Waiting) else In(s.consumers, Waiting) == {}
    case CallStep(t) => t in In(s.consumers, Outside)
    case EnterStep(t) => t in In(s.consumers, Entering) || t in In(s.consumers, Notified)
    case SpuriousStep(t) => t in In(s.consumers, Waiting)
    case TakeStep(_) => true
    case CloseStoreStep(t) => t !in s.closing
    case CloseNotifyStep(t) => t in s.closing
  }

  function Next<T>(s: System<T>, e: Step<T>): System<T>
    requires Enabled(s, e)
  {
    match e
    case PushStep(item, woken) =>
      System(Push(s.ring, item),
             if woken.Some? then s.consumers[woken.value := Notified] else s.consumers,
             s.closing)
    case CallStep(t) => s.(consumers := s.consumers[t := Entering])
    case EnterStep(t) =>
      if s.ring.buf != [] then s.(ring := Take(s.ring, 1), consumers := s.consumers[t := Outside])
      else if s.ring.closed then s.(consumers := s.consumers[t := Outside])
      else s.(consumers := s.consumers[t := Waiting])
    case SpuriousStep(t) => s.(consumers := s.consumers[t := Notified])
    case TakeStep(max) => s.(ring := Take(s.ring, max))
    case CloseStoreStep(t) => s.(ring := s.ring.(closed := true), closing := s.closing + {t})
    case CloseNotifyStep(t) =>
      s.(consumers := map c | c in s.consumers :: if s.consumers[c] == Waiting then Notified else s.consumers[c],
         closing := s.closing - {t})
  }

  predicate Initial<T>(s: System<T>) {
    s.ring.buf == [] && !s.ring.closed && s.closing == {}
    && forall t :: t in s.consumers ==> s.consumers[t] == Outside
  }

  /** The state a trace leads to, if each of its steps is enabled where it is taken. */
  function Exec<T>(s: System<T>, trace: seq<Step<T>>): Option<System<T>> {
    if trace == [] then Some(s)
    else
      var m := Exec(s, Init(trace));
      if m.Some? && Enabled(m.value, Last(trace)) then Some(Next(m.value, Last(trace))) else None
  }

  /**
   While some consumer is parked, at least as many woken consumers are on their way as there are
   items, and the buffer is closed only while a `notify_all` is still to come.
   */
  predicate NoLostWakeup<T>(s: System<T>) {
    In(s.consumers, Waiting) != {} ==>
      |In(s.consumers, Notified)| >= |s.ring.buf| && (s.ring.closed ==> s.closing != {})
  }

  /** One thread changing its place changes two of the four groups, by that thread alone. */
  lemma {:induction false} Moves(c: map<Thread, Consumer>, t: Thread, to: Consumer)
    requires t in c && c[t] != to
    ensures var c' := c[t := to];
            && |In(c', to)| == |In(c, to)| + 1
            && (forall other :: other != to ==> In(c', other) == In(c, other) - {t})
  {
    var c' := c[t := to];
    assert In(c', to) == In(c, to) + {t};
    forall other | other != to
      ensures In(c', other) == In(c, other) - {t}
    {
      assert forall u :: u in In(c', other) <==> u in In(c, other) - {t};
    }
  }

  lemma {:induction false} PushKeepsWakeups<T>(s: System<T>, item: T, woken: Option<Thread>)
    requires NoLostWakeup(s) && Enabled(s, PushStep(item, woken))
    ensures NoLostWakeup(Next(s, PushStep(item, woken)))
  {
    if woken.Some? {
      Moves(s.consumers, woken.value, Notified);
    }
  }

  lemma {:induction false} EnterKeepsWakeups<T>(s: System<T>, t: Thread)
    requires NoLostWakeup(s) && Enabled(s, EnterStep(t))
    ensures NoLostWakeup(Next(s, EnterStep(t)))
  {
    Moves(s.consumers, t, if s.ring.buf != [] || s.ring.closed then Outside else Waiting);
  }

  lemma {:induction false} EveryStepKeepsWakeups<T>(s: System<T>, e: Step<T>)
    requires NoLostWakeup(s) && Enabled(s, e)
    ensures NoLostWakeup(Next(s, e))
  {
    match e {
      case PushStep(item, woken) => PushKeepsWakeups(s, item, woken);
      case CallStep(t) => Moves(s.consumers, t, Entering);
      case EnterStep(t) => EnterKeepsWakeups(s, t);
      case SpuriousStep(t) => Moves(s.consumers, t, Notified);
      case TakeStep(max) =>
      case CloseStoreStep(t) =>
      case CloseNotifyStep(t) => assert In(Next(s, e).consumers, Waiting) == {};
    }
  }

  /** In every reachable state no wakeup has been lost. */
  lemma {:induction false} NoWakeupIsEverLost<T>(s: System<T>, trace: seq<Step<T>>, t: System<T>)
    requires Initial(s) && Exec(s, trace) == Some(t)
    ensures NoLostWakeup(t)
  {
    if trace == [] {
      assert In(s.consumers, Waiting) == {};
    } else {
      var m := Exec(s, Init(trace)).value;
      NoWakeupIsEverLost(s, Init(trace), m);
      EveryStepKeepsWakeups(m, Last(trace));
    }
  }

  /**
   Nobody sleeps for good beside an item or after a close: if a consumer is parked in a reachable
   state and nobody else is going to act, the buffer is empty and open.
   */
  lemma {:induction false} SleepersHaveNothingToDo<T>(s: System<T>, trace: seq<Step<T>>, t: System<T>)
    requires Initial(s) && Exec(s, trace) == Some(t)
    requires In(t.consumers, Waiting) != {} && In(t.consumers, Notified) == {} && t.closing == {}
    ensures t.ring.buf == [] && !t.ring.closed
  {
    NoWakeupIsEverLost(s, trace, t);
  }

  /**
   If a consumer is parked while an item is buffered, some woken consumer can enter next, and
   whichever does leaves with the oldest item.
   */
  lemma {:induction false} ParkedBesideItemMeansTakerComing<T>(s: System<T>, trace: seq<Step<T>>, t: System<T>)
    requires Initial(s) && Exec(s, trace) == Some(t)
    requires In(t.consumers, Waiting) != {} && t.ring.buf != []
    ensures exists c :: c in In(t.consumers, Notified)
    ensures forall c :: c in In(t.consumers, Notified) ==>
              Enabled(t, EnterStep(c))
              && Next(t, EnterStep(c)).ring == Take(t.ring, 1)
              && Next(t, EnterStep(c)).consumers[c] == Outside
  {
    NoWakeupIsEverLost(s, trace, t);
    assert In(t.consumers, Notified) != {};
  }

  /** Once closed, the buffer stays closed and no thread is parked that was not parked before. */
  lemma {:induction false} ClosedNeverParks<T>(s: System<T>, e: Step<T>)
    requires s.ring.closed && Enabled(s, e)
    ensures Next(s, e).ring.closed && In(Next(s, e).consumers, Waiting) <= In(s.consumers, Waiting)
  {}

  /** When the last pending close has notified, nobody is parked any more, and nobody will be. */
  lemma {:induction false} CloseReleasesEveryone<T>(s: System<T>, trace: seq<Step<T>>, t: System<T>)
    requires Initial(s) && Exec(s, trace) == Some(t) && t.ring.closed && t.closing == {}
    ensures In(t.consumers, Waiting) == {}
  {
    NoWakeupIsEverLost(s, trace, t);
  }

  /**
   What a call to the blocking pop comes to, from the call through any one turn at the lock: it leaves
   with the oldest item, or, the buffer being empty, leaves if that is closed and parks if it is open.
   */
  lemma {:induction false} PopOutcome<T>(s: System<T>, t: Thread)
    requires Enabled(s, EnterStep(t))
    ensures var s' := Next(s, EnterStep(t));
            && (s.ring.buf != [] ==> s'.consumers[t] == Outside && s'.ring.buf == s.ring.buf[1..])
            && (s.ring.buf == [] ==> s'.ring == s.ring)
            && (s.ring.buf == [] ==> s'.consumers[t] == if s.ring.closed then Outside else Waiting)
            && forall u :: u != t && u in s.consumers ==> s'.consumers[u] == s.consumers[u]
  {}

  /** A call is always followed by a turn at the lock. */
  lemma {:induction false} CallTakesTurn<T>(s: System<T>, t: Thread)
    requires Enabled(s, CallStep(t))
    ensures Next(s, CallStep(t)).ring == s.ring && Enabled(Next(s, CallStep(t)), EnterStep(t))
  {}

  /** Nobody returns from the blocking pop but with an item or from a closed buffer. */
  lemma {:induction false} PopReturnsWithReason<T>(s: System<T>, e: Step<T>, t: Thread)
    requires Enabled(s, e) && t in s.consumers && s.consumers[t] != Outside
    requires t in Next(s, e).consumers && Next(s, e).consumers[t] == Outside
    ensures e == EnterStep(t) && (s.ring.buf != [] || s.ring.closed)
    ensures s.ring.buf != [] ==> Next(s, e).ring.buf == s.ring.buf[1..]
  {}
}
