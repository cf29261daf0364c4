/**
  The heartbeat of one run (worker/adapters/nats/handler.py, `_heartbeat`) with
  ticks that take no time of their own: tick k comes k intervals after the
  claim, and each of its database extensions succeeds, fails to reach the
  database, or finds the row not owned any more.
*/
module Heartbeat {
  import opened Prelude

  datatype Timing = Timing(heartbeat: Time, ackWait: Time, lease: Time)

  /** What `validate_runtime_invariants` admits. */
  predicate ValidTiming(t: Timing) {
    t.heartbeat > 0.0 && t.ackWait > 2.0 * t.heartbeat && t.lease > t.ackWait
  }

  datatype Tick = Extended | Unreachable | NotOwned

  /** The time of tick k (k >= 1); tick 0 is the claim. */
  function TickTime(claimedAt: Time, k: nat, t: Timing): Time {
    claimedAt + k as Time * t.heartbeat
  }

  /** The last of the first n ticks that extended the lease; 0 is the claim itself. */
  function LastExtension(ticks: seq<Tick>, n: nat): (k: nat)
    requires n <= |ticks|
    ensures k <= n
    ensures k > 0 ==> ticks[k - 1] == Extended
    ensures forall i :: k <= i < n ==> ticks[i] != Extended
  {
    if n == 0 then 0 else if ticks[n - 1] == Extended then n else LastExtension(ticks, n - 1)
  }

  /** `lease_expires_at` after n ticks, while the row is this run's. */
  function LeaseAfter(claimedAt: Time, ticks: seq<Tick>, n: nat, t: Timing): Time
    requires n <= |ticks|
  {
    TickTime(claimedAt, LastExtension(ticks, n), t) + t.lease
  }

  datatype Ending = StillBeating | LeaseGone | LeaseExpired

  /**
    The loop over the ticks that come before the run is over.  It gives up at
    the first tick that finds the row not owned, or that cannot reach the
    database once a whole lease has passed since the last success - and at no
    other.
  */
  method Beat(claimedAt: Time, ticks: seq<Tick>, t: Timing) returns (ending: Ending, at: nat)
    requires ValidTiming(t)
    ensures at <= |ticks|
    ensures ending.StillBeating? ==> at == |ticks|
    ensures forall k :: 0 < k < at ==> !GivesUp(claimedAt, ticks, k, t)
    ensures ending.StillBeating? ==> forall k :: 0 < k <= at ==> !GivesUp(claimedAt, ticks, k, t)
    ensures !ending.StillBeating? ==> at > 0 && GivesUp(claimedAt, ticks, at, t)
    ensures ending.LeaseGone? ==> ticks[at - 1] == NotOwned
    ensures ending.LeaseExpired? ==> ticks[at - 1] == Unreachable
  {
    var deadline := claimedAt + t.lease;
    var monotonic := claimedAt;
    for n := 0 to |ticks|
      invariant monotonic == TickTime(claimedAt, n, t)
      invariant deadline == LeaseAfter(claimedAt, ticks, n, t)
      invariant forall k :: 0 < k <= n ==> !GivesUp(claimedAt, ticks, k, t)
    {
      monotonic := monotonic + t.heartbeat;
      match ticks[n] {
        case Unreachable =>
          if monotonic >= deadline {
            return LeaseExpired, n + 1;
          }
        case NotOwned => return LeaseGone, n + 1;
        case Extended => deadline := monotonic + t.lease;
      }
    }
    return StillBeating, |ticks|;
  }

  predicate GivesUp(claimedAt: Time, ticks: seq<Tick>, k: nat, t: Timing)
    requires 0 < k <= |ticks|
  {
    || ticks[k - 1] == NotOwned
    || (ticks[k - 1] == Unreachable && TickTime(claimedAt, k, t) >= LeaseAfter(claimedAt, ticks, k - 1, t))
  }

  predicate NoTwoInARow(ticks: seq<Tick>) {
    forall k :: 0 < k < |ticks| ==> !(ticks[k - 1] == Unreachable && ticks[k] == Unreachable)
  }

  /** The last of the first n ticks that reached the database, whatever it found there; 0 is the claim itself. */
  function LastReached(ticks: seq<Tick>, n: nat): (k: nat)
    requires n <= |ticks|
    ensures k <= n
    ensures forall i :: k <= i < n ==> ticks[i] == Unreachable
  {
    if n == 0 then 0 else if ticks[n - 1] != Unreachable then n else LastReached(ticks, n - 1)
  }

  lemma ReachedRecently(ticks: seq<Tick>, n: nat)
    requires n <= |ticks| && NoTwoInARow(ticks)
    ensures LastReached(ticks, n) >= n - 1
  {
    if n >= 2 && ticks[n - 1] == Unreachable {
      assert ticks[n - 2] != Unreachable;
    }
  }

  /** As long as no two ticks in a row fail, the next one comes less than a lease after the last that did not. */
  lemma ReachedWithinLease(claimedAt: Time, ticks: seq<Tick>, n: nat, t: Timing)
    requires ValidTiming(t) && n <= |ticks| && NoTwoInARow(ticks)
    ensures TickTime(claimedAt, n + 1, t) <= TickTime(claimedAt, LastReached(ticks, n), t) + 2.0 * t.heartbeat
    ensures TickTime(claimedAt, n + 1, t) < TickTime(claimedAt, LastReached(ticks, n), t) + t.lease
  {
    var last := LastReached(ticks, n);
    ReachedRecently(ticks, n);
    LaterTick(claimedAt, last, n + 1 - last, t);
    if n + 1 - last == 1 {
      assert (n + 1 - last) as Time * t.heartbeat == t.heartbeat;
    } else {
      assert n + 1 - last == 2;
      assert (n + 1 - last) as Time * t.heartbeat == 2.0 * t.heartbeat;
    }
  }

  /**
    So, with every tick that reaches the database extending the lease, the
    lease outlasts the next tick, and the loop does not give up.
  */
  lemma LeaseOutlastsNextTick(claimedAt: Time, ticks: seq<Tick>, n: nat, t: Timing, now: Time)
    requires ValidTiming(t) && n <= |ticks| && NoTwoInARow(ticks)
    requires forall k :: 0 <= k < n ==> ticks[k] != NotOwned
    requires TickTime(claimedAt, n, t) <= now <= TickTime(claimedAt, n + 1, t)
    ensures now < LeaseAfter(claimedAt, ticks, n, t)
    ensures n > 0 ==> !GivesUp(claimedAt, ticks, n, t)
  {
    ReachedIsExtended(ticks, n);
    ReachedWithinLease(claimedAt, ticks, n, t);
    if n > 0 {
      ReachedIsExtended(ticks, n - 1);
      ReachedWithinLease(claimedAt, ticks, n - 1, t);
    }
  }

  lemma {:induction false} ReachedIsExtended(ticks: seq<Tick>, n: nat)
    requires n <= |ticks| && forall k :: 0 <= k < n ==> ticks[k] != NotOwned
    ensures LastReached(ticks, n) == LastExtension(ticks, n)
  {
    if n > 0 {
      ReachedIsExtended(ticks, n - 1);
    }
  }

  /**
    A run whose extensions keep failing ends: with every tick after tick s
    unreachable, it gives up no later than the first tick a whole lease after
    s, which is less than lease + heartbeat after s; so it is not still beating
    at any later tick.
  */
  lemma FailingRunEnds(claimedAt: Time, ticks: seq<Tick>, s: nat, n: nat, t: Timing)
    requires ValidTiming(t) && s <= n <= |ticks|
    requires LastExtension(ticks, s) == s
    requires forall i :: s <= i < n ==> ticks[i] == Unreachable
    requires TickTime(claimedAt, n, t) >= TickTime(claimedAt, s, t) + t.lease + t.heartbeat
    ensures exists k :: s < k <= n && GivesUp(claimedAt, ticks, k, t)
                     && TickTime(claimedAt, k, t) < TickTime(claimedAt, s, t) + t.lease + t.heartbeat
  {
    var k := FirstTickPast(t.lease, t.heartbeat);
    LaterTick(claimedAt, s, k, t);
    TickWithin(claimedAt, s + k, n, t);
    UnreachableKeepsLast(ticks, s, s + k - 1);
    assert ticks[s + k - 1] == Unreachable;
    assert GivesUp(claimedAt, ticks, s + k, t);
  }

  lemma LaterTick(claimedAt: Time, s: nat, k: nat, t: Timing)
    ensures TickTime(claimedAt, s + k, t) == TickTime(claimedAt, s, t) + k as Time * t.heartbeat
  {
    assert (s + k) as Time == s as Time + k as Time;
    Distributes(s as Time, k as Time, t.heartbeat);
  }

  lemma Distributes(a: Time, b: Time, h: Time)
    ensures (a + b) * h == a * h + b * h
  {
  }

  /** A tick that comes before the time of tick n is one of the first n. */
  lemma TickWithin(claimedAt: Time, k: nat, n: nat, t: Timing)
    requires t.heartbeat > 0.0 && TickTime(claimedAt, k, t) <= TickTime(claimedAt, n, t)
    ensures k <= n
  {
    if n < k {
      ScaleStrictly(n as Time, k as Time, t.heartbeat);
    }
  }

  lemma ScaleStrictly(a: Time, b: Time, h: Time)
    requires a < b && h > 0.0
    ensures a * h < b * h
  {
    assert (b - a) * h > 0.0;
  }

  /** The number of heartbeats that first covers a lease. */
  lemma FirstTickPast(lease: Time, heartbeat: Time) returns (k: nat)
    requires lease > 0.0 && heartbeat > 0.0
    ensures k > 0 && lease <= k as Time * heartbeat < lease + heartbeat
  {
    var ratio := lease / heartbeat;
    assert lease == ratio * heartbeat;
    var c := -((-ratio).Floor);
    assert ratio <= c as Time < ratio + 1.0;
    assert ratio > 0.0;
    k := c;
    if ratio < k as Time {
      ScaleStrictly(ratio, k as Time, heartbeat);
    }
    var next := ratio + 1.0;
    assert k as Time < next;
    ScaleStrictly(k as Time, next, heartbeat);
    assert next * heartbeat == ratio * heartbeat + heartbeat;
    assert k as Time * heartbeat < lease + heartbeat;
  }

  lemma {:induction false} UnreachableKeepsLast(ticks: seq<Tick>, s: nat, n: nat)
    requires s <= n <= |ticks| && LastExtension(ticks, s) == s
    requires forall i :: s <= i < n ==> ticks[i] == Unreachable
    ensures LastExtension(ticks, n) == s
  {
    if n > s {
      UnreachableKeepsLast(ticks, s, n - 1);
    }
  }
}
