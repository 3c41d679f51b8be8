/**
 The token bucket of one source, as a function of its arrival times: `capacity` tokens at the first
 arrival, `rate` tokens per second afterwards, never more than `capacity`, one token per admitted
 packet. The main results say that this recurrence is exactly the (capacity, rate) envelope.
 */
module TokenBucket {

  function Capped(x: real, capacity: real): real {
    if x <= capacity then x else capacity
  }

  /** Refilling: what `elapsed` seconds earn is added, up to the capacity. */
  function Refilled(tokens: real, elapsed: real, rate: real, capacity: real): real {
    Capped(tokens + elapsed * rate, capacity)
  }

  /** Tokens at arrival `n`, after the refill and before the packet is charged. */
  function Level(capacity: real, rate: real, ts: seq<real>, n: nat): real
    requires n < |ts|
    decreases n, 0
  {
    if n == 0 then capacity
    else Refilled(Charged(capacity, rate, ts, n - 1), ts[n] - ts[n - 1], rate, capacity)
  }

  predicate Admits(capacity: real, rate: real, ts: seq<real>, n: nat)
    requires n < |ts|
    decreases n, 1
  {
    Level(capacity, rate, ts, n) >= 1.0
  }

  /** Tokens left once arrival `n` has been decided. */
  function Charged(capacity: real, rate: real, ts: seq<real>, n: nat): real
    requires n < |ts|
    decreases n, 2
  {
    if Admits(capacity, rate, ts, n) then Level(capacity, rate, ts, n) - 1.0
    else Level(capacity, rate, ts, n)
  }

  /** How many of the arrivals `lo..hi` were admitted. */
  function Admitted(capacity: real, rate: real, ts: seq<real>, lo: nat, hi: nat): nat
    requires hi <= |ts|
  {
    if lo >= hi then 0
    else Admitted(capacity, rate, ts, lo, hi - 1)
         + if Admits(capacity, rate, ts, hi - 1) then 1 else 0
  }

  /** The room that the interval from arrival `j` to arrival `n` leaves for one more packet. */
  function Room(capacity: real, rate: real, ts: seq<real>, j: nat, n: nat): real
    requires j <= n < |ts|
  {
    capacity + rate * (ts[n] - ts[j]) - Admitted(capacity, rate, ts, j, n) as real
  }

  predicate Ordered(ts: seq<real>) {
    forall i, j :: 0 <= i <= j < |ts| ==> ts[i] <= ts[j]
  }

  /** Room grows by what one gap earns and shrinks by what one arrival spends. */
  lemma {:induction false} RoomStep(capacity: real, rate: real, ts: seq<real>, j: nat, n: nat)
    requires j < n < |ts|
    ensures Room(capacity, rate, ts, j, n)
         == Room(capacity, rate, ts, j, n - 1) + (ts[n] - ts[n - 1]) * rate
            - (if Admits(capacity, rate, ts, n - 1) then 1.0 else 0.0)
  {
    assert rate * (ts[n] - ts[j]) == rate * (ts[n - 1] - ts[j]) + (ts[n] - ts[n - 1]) * rate;
  }

  /** The level is the minimum, over every interval ending at this arrival, of the room left in it. */
  lemma {:induction false} LevelIsMinimumOfEnvelopes(capacity: real, rate: real, ts: seq<real>, n: nat)
    requires n < |ts|
    ensures forall j :: 0 <= j <= n ==> Level(capacity, rate, ts, n) <= Room(capacity, rate, ts, j, n)
    ensures exists j :: 0 <= j <= n && Level(capacity, rate, ts, n) == Room(capacity, rate, ts, j, n)
  {
    assert rate * (ts[n] - ts[n]) == 0.0;
    assert Room(capacity, rate, ts, n, n) == capacity;
    if n > 0 {
      LevelIsMinimumOfEnvelopes(capacity, rate, ts, n - 1);
      forall j | 0 <= j < n
        ensures Level(capacity, rate, ts, n) <= Room(capacity, rate, ts, j, n)
      {
        RoomStep(capacity, rate, ts, j, n);
      }
      var j :| 0 <= j <= n - 1 && Level(capacity, rate, ts, n - 1) == Room(capacity, rate, ts, j, n - 1);
      RoomStep(capacity, rate, ts, j, n);
      if Level(capacity, rate, ts, n) == capacity {
        assert Level(capacity, rate, ts, n) == Room(capacity, rate, ts, n, n);
      } else {
        assert Level(capacity, rate, ts, n) == Room(capacity, rate, ts, j, n);
      }
    }
  }

  /** One more packet at arrival `n` would exceed capacity + rate * length on some interval ending there. */
  ghost predicate WouldBreakEnvelope(capacity: real, rate: real, ts: seq<real>, n: nat)
    requires n < |ts|
  {
    exists j :: 0 <= j <= n
                && Admitted(capacity, rate, ts, j, n) as real + 1.0 > capacity + rate * (ts[n] - ts[j])
  }

  /** A packet is refused exactly when admitting it would break the envelope. */
  lemma {:induction false} RefusedIffEnvelopeBroken(capacity: real, rate: real, ts: seq<real>, n: nat)
    requires n < |ts|
    ensures !Admits(capacity, rate, ts, n) <==> WouldBreakEnvelope(capacity, rate, ts, n)
  {
    LevelIsMinimumOfEnvelopes(capacity, rate, ts, n);
    if !Admits(capacity, rate, ts, n) {
      var j :| 0 <= j <= n && Level(capacity, rate, ts, n) == Room(capacity, rate, ts, j, n);
      assert Admitted(capacity, rate, ts, j, n) as real + 1.0 > capacity + rate * (ts[n] - ts[j]);
    } else {
      forall j | 0 <= j <= n
        ensures Admitted(capacity, rate, ts, j, n) as real + 1.0 <= capacity + rate * (ts[n] - ts[j])
      {
        assert Level(capacity, rate, ts, n) <= Room(capacity, rate, ts, j, n);
      }
    }
  }

  lemma {:induction false} LevelInRange(capacity: real, rate: real, ts: seq<real>, n: nat)
    requires capacity >= 0.0 && rate >= 0.0 && Ordered(ts) && n < |ts|
    ensures 0.0 <= Charged(capacity, rate, ts, n) <= Level(capacity, rate, ts, n) <= capacity
  {
    if n > 0 {
      LevelInRange(capacity, rate, ts, n - 1);
      assert (ts[n] - ts[n - 1]) * rate >= 0.0;
    }
  }

  /** No interval, however it is chosen, admits more than capacity + rate * length packets. */
  lemma {:induction false} NoIntervalExceedsEnvelope(capacity: real, rate: real, ts: seq<real>, j: nat, n: nat)
    requires capacity >= 0.0 && rate >= 0.0 && Ordered(ts) && j <= n < |ts|
    ensures Admitted(capacity, rate, ts, j, n + 1) as real <= capacity + rate * (ts[n] - ts[j])
  {
    LevelIsMinimumOfEnvelopes(capacity, rate, ts, n);
    LevelInRange(capacity, rate, ts, n);
    assert Level(capacity, rate, ts, n) <= Room(capacity, rate, ts, j, n);
  }

  /** A bucket left alone for long enough is full again. */
  lemma {:induction false} RefillsCompletely(tokens: real, elapsed: real, rate: real, capacity: real, age: real)
    requires tokens >= 0.0 && rate >= 0.0 && elapsed >= age && age * rate >= capacity
    ensures Refilled(tokens, elapsed, rate, capacity) == capacity
  {
    assert (elapsed - age) * rate >= 0.0;
    assert elapsed * rate == age * rate + (elapsed - age) * rate;
  }

  lemma {:induction false} NoTimeEarnsNothing(now: real, rate: real, capacity: real)
    ensures Refilled(capacity, now - now, rate, capacity) == capacity
  {
    assert (now - now) * rate == 0.0;
  }
}
