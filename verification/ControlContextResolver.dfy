/**
  `ResolveControlContext.resolve` as the loop it is, running beside a fleet of
  other builders.  Every command it issues is a step of module Cache, and at
  every await any number of others' steps may come first.
*/
module ControlContextResolver {
  import opened Prelude
  import opened Cache

  /** `ControlContextCachePolicy.__post_init__`. */
  datatype Policy = Policy(leaseSeconds: Time, waitSeconds: Time, pollSeconds: Time)

  predicate ValidPolicy(p: Policy) {
    p.leaseSeconds > 0.0 && p.waitSeconds > 0.0 && p.pollSeconds > 0.0 && p.waitSeconds > p.leaseSeconds
  }

  datatype ResolveError = CacheUnavailable | RebuildTimeout | BuildFailed

  /** Whole multiples of the poll interval that cover a wait. */
  function RoundsFor(wait: Time, poll: Time): (n: nat)
    requires wait > 0.0 && poll > 0.0
    ensures Covers(n, poll, wait)
  {
    var n := (wait / poll).Floor + 1;
    assert wait == (wait / poll) * poll <= n as Time * poll;
    n
  }

  /** So many more rounds use up what remains of the wait. */
  predicate Covers(rounds: nat, poll: Time, remaining: Time) { remaining <= rounds as Time * poll }

  lemma OneRoundLess(rounds: nat, poll: Time, earlier: Time, remaining: Time, later: Time)
    requires Covers(rounds, poll, earlier) && 0.0 < remaining <= earlier && poll > 0.0
    requires later <= 0.0 || later <= remaining - poll
    ensures rounds >= 1 && Covers(rounds - 1, poll, later)
  {
    assert rounds >= 1;
    assert (rounds - 1) as Time == rounds as Time - 1.0;
    assert (rounds - 1) as Time * poll == rounds as Time * poll - poll;
  }

  lemma ReturnedIsPublished(f: Fleet, id: BuilderId)
    requires FleetOk(f) && id in f.builders && f.builders[id].pc.Returned?
    ensures PublishedFor(f, f.builders[id].key) == [f.builders[id].pc.context]
    ensures f.builders[id].pc.context.generation == f.builders[id].key.generation
  {
    assert BuilderOk(f, id, f.builders[id]) && KeyOk(f, f.builders[id].key);
  }

  /** Under the lease there is nothing published yet. */
  lemma BuiltIsNew(f: Fleet, id: BuilderId)
    requires FleetOk(f) && id in f.builders && f.builders[id].pc.Publishing?
    ensures Holds(f.store, f.builders[id].key, f.builders[id].pc.token) ==> PublishedFor(f, f.builders[id].key) == []
  {
    assert BuilderOk(f, id, f.builders[id]);
  }

  /** The rebuild lock would still be held after so many seconds. */
  predicate LockedAfter(s: Store, key: Key, seconds: Time) {
    key in s.locks && s.now + seconds < s.locks[key].expiresAt
  }

  /** So many seconds are less than a poll interval beyond the end of the lock. */
  predicate SoonAfterLock(s: Store, key: Key, poll: Time, seconds: Time) {
    seconds == 0.0 || (Locked(s, key) && s.now + seconds < s.locks[key].expiresAt + poll)
  }

  function Later(f: Fleet, seconds: Time): Fleet {
    f.(store := f.store.(now := f.store.now + seconds))
  }

  class ResolveControlContext {
    const reachable: bool   // Redis answers every command of this process
    const alone: bool       // commands take no time, and no other builder acts meanwhile
    const policy: Policy
    var fleet: Fleet
    var monotonic: Time

    constructor (reachable: bool, alone: bool, policy: Policy, fleet: Fleet, monotonic: Time)
      ensures this.reachable == reachable && this.alone == alone && this.policy == policy
      ensures this.fleet == fleet && this.monotonic == monotonic
    {
      this.reachable, this.alone, this.policy := reachable, alone, policy;
      this.fleet := fleet;
      this.monotonic := monotonic;
    }

    /** One command of builder `id`, with nothing in between. */
    method Do(a: Action)
      requires FleetOk(fleet) && Enabled(fleet, a)
      modifies this`fleet
      ensures FleetOk(fleet) && FleetStep(old(fleet), a, fleet)
      ensures forall key :: PublishedFor(old(fleet), key) <= PublishedFor(fleet, key)
    {
      StepKeepsFleetOk(fleet, a);
      fleet := After(fleet, a);
    }

    /** An await: the other builders, Redis expiry and time do whatever they can. */
    method Await(id: BuilderId)
      requires FleetOk(fleet) && id in fleet.builders
      modifies this
      ensures FleetOk(fleet) && id in fleet.builders && fleet.builders[id] == old(fleet.builders[id])
      ensures forall key :: PublishedFor(old(fleet), key) <= PublishedFor(fleet, key)
      ensures monotonic >= old(monotonic)
      ensures alone ==> fleet == old(fleet) && monotonic == old(monotonic)
    {
      if alone {
        return;
      }
      var elapsed: Time := *;
      if elapsed > 0.0 {
        monotonic := monotonic + elapsed;
      }
      var steps: nat := *;
      while steps > 0
        invariant FleetOk(fleet) && id in fleet.builders && fleet.builders[id] == old(fleet.builders[id])
        invariant forall key :: PublishedFor(old(fleet), key) <= PublishedFor(fleet, key)
        modifies this`fleet
      {
        var a: Action := *;
        if Actor(a) != Some(id) && Enabled(fleet, a) {
          Do(a);
        }
        steps := steps - 1;
      }
    }

    /** `_sleep`: time passes for everybody. */
    method Pause(id: BuilderId, seconds: Time)
      requires FleetOk(fleet) && id in fleet.builders && seconds > 0.0
      modifies this
      ensures FleetOk(fleet) && id in fleet.builders && fleet.builders[id] == old(fleet.builders[id])
      ensures forall key :: PublishedFor(old(fleet), key) <= PublishedFor(fleet, key)
      ensures monotonic >= old(monotonic) + seconds
      ensures alone ==> monotonic == old(monotonic) + seconds && fleet == Later(old(fleet), seconds)
    {
      monotonic := monotonic + seconds;
      Do(Tick(fleet.store.now + seconds));
      Await(id);
    }

    /**
      `_build` and `put`, either of which may raise on its way to the release.
      `built` is what the build yields, None if it raises.  What is built is
      published exactly if the lease is still held at the put.
    */
    method BuildAndPut(id: BuilderId, built: Option<string>)
      requires FleetOk(fleet) && id in fleet.builders && fleet.builders[id].pc.Building?
      modifies this
      ensures FleetOk(fleet) && id in fleet.builders && fleet.builders[id].pc.Releasing?
      ensures fleet.builders[id].pc.token == old(fleet.builders[id].pc.token)
      ensures fleet.builders[id].key == old(fleet.builders[id].key)
      ensures monotonic >= old(monotonic)
      ensures built.None? ==> fleet.builders[id].pc.outcome.None? && fleet.published == old(fleet.published)
      ensures built.Some? && reachable ==>
                var key, token := fleet.builders[id].key, fleet.builders[id].pc.token;
                if Holds(fleet.store, key, token)
                then fleet.builders[id].pc.outcome == Some(Context(key.generation, built.value))
                     && PublishedFor(fleet, key) == [Context(key.generation, built.value)]
                else fleet.builders[id].pc.outcome.None?
      ensures alone ==>
                && fleet.store.locks == old(fleet.store.locks) && fleet.store.now == old(fleet.store.now)
                && monotonic == old(monotonic)
    {
      hide FleetOk;
      if built.None? {
        Do(Fail(id));
        return;
      }
      Do(Build(id, built.value));
      Await(id);
      BuiltIsNew(fleet, id);
      var answer: Answer := *;
      Do(Put(id, if reachable then Answered else answer));
    }

    /** The read under the lease. */
    method CheckAgain(id: BuilderId)
      requires FleetOk(fleet) && id in fleet.builders && fleet.builders[id].pc.Checking?
      modifies this`fleet
      ensures FleetOk(fleet) && id in fleet.builders && fleet.builders[id].key == old(fleet.builders[id].key)
      ensures fleet.published == old(fleet.published) && fleet.issued == old(fleet.issued) && fleet.store == old(fleet.store)
      ensures var token, published := old(fleet.builders[id].pc.token), PublishedFor(old(fleet), old(fleet.builders[id].key));
              var pc := fleet.builders[id].pc;
              || (!reachable && pc == Releasing(token, None))
              || pc == (if published == [] then Building(token) else Releasing(token, Some(published[0])))
    {
      assert KeyOk(fleet, fleet.builders[id].key);
      var unread: bool := *;
      if !reachable && unread {
        Do(Fail(id));
      } else {
        Do(Recheck(id));
      }
    }

    /** `release_rebuild`: unless Redis fails it, the lease is not held by this builder's token any more. */
    method ReleaseRebuild(id: BuilderId) returns (r: Result<Context, ResolveError>)
      requires FleetOk(fleet) && id in fleet.builders && fleet.builders[id].pc.Releasing?
      modifies this`fleet
      ensures FleetOk(fleet) && id in fleet.builders && fleet.builders[id].key == old(fleet.builders[id].key)
      ensures r.Ok? ==> fleet.builders[id].pc == Returned(r.value) && old(fleet.builders[id].pc.outcome) == Some(r.value)
      ensures r.Err? ==> fleet.builders[id].pc == Raised && !r.error.RebuildTimeout?
      ensures reachable ==> !Holds(fleet.store, fleet.builders[id].key, old(fleet.builders[id].pc.token))
      ensures reachable && old(fleet.builders[id].pc.outcome).Some? ==> r == Ok(old(fleet.builders[id].pc.outcome).value)
    {
      var unreleased: bool, answer: Answer := *, *;
      if !reachable && unreleased {
        Do(Fail(id));
        return Err(CacheUnavailable);
      }
      Do(LetGo(id, if reachable then Answered else answer));
      r := if fleet.builders[id].pc.Returned? then Ok(fleet.builders[id].pc.context) else Err(CacheUnavailable);
    }

    /**
      Under the rebuild lease: check again, build and publish only what is still
      missing, and release: whenever Redis answers, whatever the outcome, the
      lease is not held by this builder's token any more.
    */
    method Rebuild(id: BuilderId, built: Option<string>) returns (r: Result<Context, ResolveError>)
      requires FleetOk(fleet) && id in fleet.builders && fleet.builders[id].pc.Checking?
      modifies this
      ensures FleetOk(fleet) && id in fleet.builders && fleet.builders[id].key == old(fleet.builders[id].key)
      ensures r.Ok? ==> fleet.builders[id].pc == Returned(r.value)
      ensures r.Err? ==> fleet.builders[id].pc == Raised && !r.error.RebuildTimeout?
      ensures reachable ==> !Holds(fleet.store, fleet.builders[id].key, old(fleet.builders[id].pc.token))
      ensures reachable && PublishedFor(old(fleet), old(fleet.builders[id].key)) != [] ==>
                r == Ok(PublishedFor(old(fleet), old(fleet.builders[id].key))[0])
      ensures alone && reachable && Holds(old(fleet.store), old(fleet.builders[id].key), old(fleet.builders[id].pc.token))
              && PublishedFor(old(fleet), old(fleet.builders[id].key)) == [] ==>
                r == if built.Some? then Ok(Context(fleet.builders[id].key.generation, built.value)) else Err(BuildFailed)
      ensures monotonic >= old(monotonic) && (alone ==> monotonic == old(monotonic))
    {
      hide FleetOk;
      CheckAgain(id);
      Await(id);
      var builds := fleet.builders[id].pc.Building?;
      if builds {
        BuildAndPut(id, built);
        Await(id);
      }
      r := ReleaseRebuild(id);
      if builds && built.None? {
        r := Err(BuildFailed);
      }
    }

    /** The first read of a pass. */
    method ReadOnce(id: BuilderId) returns (r: Option<Result<Context, ResolveError>>)
      requires FleetOk(fleet) && id in fleet.builders && fleet.builders[id].pc.Polling?
      modifies this`fleet
      ensures FleetOk(fleet) && id in fleet.builders && fleet.builders[id].key == old(fleet.builders[id].key)
      ensures fleet.published == old(fleet.published) && fleet.store == old(fleet.store)
      ensures var published := PublishedFor(old(fleet), old(fleet.builders[id].key));
              || (!reachable && r == Some(Err(CacheUnavailable)))
              || r == (if published == [] then None else Some(Ok(published[0])))
      ensures r.None? ==> fleet.builders[id].pc == Acquiring
      ensures r.Some? && r.value.Ok? ==> fleet.builders[id].pc == Returned(r.value.value)
    {
      assert KeyOk(fleet, fleet.builders[id].key);
      var fails: bool := *;
      if !reachable && fails {
        Do(Fail(id));
        return Some(Err(CacheUnavailable));
      }
      Do(Read(id));
      r := if fleet.builders[id].pc.Returned? then Some(Ok(fleet.builders[id].pc.context)) else None;
    }

    /** `try_acquire_rebuild`: it gets the lease exactly when nobody holds it; None is an error. */
    method Acquire(id: BuilderId) returns (acquired: Option<bool>)
      requires FleetOk(fleet) && id in fleet.builders && fleet.builders[id].pc.Acquiring?
      modifies this`fleet
      ensures FleetOk(fleet) && id in fleet.builders && fleet.builders[id].key == old(fleet.builders[id].key)
      ensures fleet.published == old(fleet.published)
      ensures reachable ==> acquired.Some?
      ensures acquired.Some? ==> acquired.value == !Locked(old(fleet.store), old(fleet.builders[id].key))
      ensures acquired == Some(true) ==>
                && fleet.builders[id].pc.Checking?
                && Holds(fleet.store, fleet.builders[id].key, fleet.builders[id].pc.token)
                && fleet.store.locks[fleet.builders[id].key].expiresAt == old(fleet.store.now) + Ttl(policy.leaseSeconds)
      ensures acquired == Some(false) ==> fleet.builders[id].pc == Waiting && fleet.store == old(fleet.store)
    {
      var token := FreshIdentifier(fleet.issued.Keys);  // secrets.token_urlsafe
      var answer: Answer := *;
      Do(TryAcquire(id, token, if reachable then Answered else answer, policy.leaseSeconds));
      if fleet.builders[id].pc.Raised? {
        return None;
      }
      acquired := Some(fleet.builders[id].pc.Checking?);
    }

    /** One pass of the loop up to the deadline check; None: somebody else is rebuilding. */
    method TryOnce(id: BuilderId, built: Option<string>) returns (r: Option<Result<Context, ResolveError>>)
      requires FleetOk(fleet) && id in fleet.builders && fleet.builders[id].pc.Polling?
      modifies this
      ensures FleetOk(fleet) && id in fleet.builders && fleet.builders[id].key == old(fleet.builders[id].key)
      ensures var published := PublishedFor(old(fleet), old(fleet.builders[id].key));
              published != [] ==> r == Some(Ok(published[0])) || (!reachable && r == Some(Err(CacheUnavailable)))
      ensures r.None? ==> fleet.builders[id].pc.Waiting?
      ensures alone && reachable && PublishedFor(old(fleet), old(fleet.builders[id].key)) == [] ==>
                r == if Locked(old(fleet.store), old(fleet.builders[id].key)) then None
                     else if built.Some? then Some(Ok(Context(fleet.builders[id].key.generation, built.value)))
                     else Some(Err(BuildFailed))
      ensures alone && r.None? ==> fleet.store == old(fleet.store) && fleet.published == old(fleet.published) && monotonic == old(monotonic)
      ensures r.Some? && r.value.Ok? ==> fleet.builders[id].pc == Returned(r.value.value)
      ensures r.Some? && r.value.Err? ==> !r.value.error.RebuildTimeout?
      ensures monotonic >= old(monotonic) && (alone ==> monotonic == old(monotonic))
    {
      Await(id);
      ghost var key := fleet.builders[id].key;
      assert KeyOk(fleet, key);
      hide FleetOk;
      r := ReadOnce(id);
      if r.Some? {
        return;
      }
      Await(id);
      var acquired := Acquire(id);
      match acquired {
        case None => r := Some(Err(CacheUnavailable));
        case Some(false) => r := None;
        case Some(true) =>
          Await(id);
          var rebuilt := Rebuild(id, built);
          r := Some(rebuilt);
      }
    }

    /**
      A context, if one is returned, is the one published for the key, of the
      key's generation, and one published before the call is returned whenever
      Redis answers; the loop ends within the wait budget.  Beside a holder that
      does nothing any more, it times out exactly when that lock is still there
      a whole wait later: the last attempt is made at the deadline itself.  With
      nobody else at work and nothing published, it otherwise returns what its
      build yields, published, or the build's error, and that within a poll
      interval of the end of the lock.
    */
    method Resolve(id: BuilderId, key: Key, built: Option<string>) returns (r: Result<Context, ResolveError>)
      requires FleetOk(fleet) && id !in fleet.builders && ValidPolicy(policy)
      modifies this
      ensures FleetOk(fleet) && id in fleet.builders && fleet.builders[id].key == key
      ensures r.Ok? ==> r.value.generation == key.generation && PublishedFor(fleet, key) == [r.value]
      ensures PublishedFor(old(fleet), key) != [] ==>
                r == Ok(PublishedFor(old(fleet), key)[0]) || (!reachable && r == Err(CacheUnavailable))
      ensures r == Err(RebuildTimeout) ==> monotonic >= old(monotonic) + policy.waitSeconds
      ensures alone && reachable && PublishedFor(old(fleet), key) == [] ==>
                r == if LockedAfter(old(fleet.store), key, policy.waitSeconds) then Err(RebuildTimeout)
                     else if built.Some? then Ok(Context(key.generation, built.value))
                     else Err(BuildFailed)
      ensures alone && reachable && PublishedFor(old(fleet), key) == [] && r != Err(RebuildTimeout) ==>
                SoonAfterLock(old(fleet.store), key, policy.pollSeconds, monotonic - old(monotonic))
    {
      hide FleetOk, Covers;
      Do(Start(id, key));
      var deadline := monotonic + policy.waitSeconds;
      var rounds := RoundsFor(policy.waitSeconds, policy.pollSeconds);
      while true
        invariant FleetOk(fleet) && id in fleet.builders && fleet.builders[id] == Builder(key, Polling)
        invariant PublishedFor(old(fleet), key) != [] ==>
                    && PublishedFor(fleet, key) == PublishedFor(old(fleet), key)
                    && rounds == RoundsFor(policy.waitSeconds, policy.pollSeconds)
        invariant Covers(rounds, policy.pollSeconds, deadline - monotonic)
        invariant deadline == old(monotonic) + policy.waitSeconds
        invariant alone && PublishedFor(old(fleet), key) == [] ==>
                    && PublishedFor(fleet, key) == []
                    && fleet.store == old(fleet.store).(now := old(fleet.store.now) + (monotonic - old(monotonic)))
                    && monotonic <= deadline
        invariant alone && reachable && PublishedFor(old(fleet), key) == [] ==>
                    SoonAfterLock(old(fleet.store), key, policy.pollSeconds, monotonic - old(monotonic))
        decreases rounds
      {
        ghost var earlier := deadline - monotonic;
        var once := TryOnce(id, built);
        if once.Some? {
          r := once.value;
          if r.Ok? {
            ReturnedIsPublished(fleet, id);
          }
          return;
        }
        var remaining := deadline - monotonic;
        if remaining <= 0.0 {
          Do(Fail(id));
          return Err(RebuildTimeout);
        }
        Pause(id, MinTime(policy.pollSeconds, remaining));
        Do(Sleep(id));
        OneRoundLess(rounds, policy.pollSeconds, earlier, remaining, deadline - monotonic);
        rounds := rounds - 1;
      }
    }
  }

  /**
    A waiter beside a builder that took the lock and died: it times out exactly
    when its wait is below the lock's time to live, which Redis rounds up to
    whole seconds, one at least.  The holder dies at once, the worst case.
  */
  method WaitOnDeadBuilder(key: Key, policy: Policy, built: Option<string>) returns (r: Result<Context, ResolveError>)
    requires ValidPolicy(policy)
    ensures r == Err(RebuildTimeout) <==> policy.waitSeconds < Ttl(policy.leaseSeconds)
  {
    var fleet := Fleet(Store(0.0, map[], map[]), map[], map[], map[]);
    assert FleetOk(fleet);
    var process := new ResolveControlContext(true, true, policy, fleet, 0.0);
    process.Do(Start(0, key));
    process.Do(Read(0));
    process.Do(TryAcquire(0, 0, Answered, policy.leaseSeconds));
    process.Do(Crash(0));
    r := process.Resolve(1, key, built);
  }

  /** The policy check passes this one, and its waiters do not outlive a dead builder's lock. */
  method HalfASecondTimesOut(key: Key, built: Option<string>) returns (r: Result<Context, ResolveError>)
    ensures ValidPolicy(Policy(0.2, 0.5, 0.1)) && r == Err(RebuildTimeout)
  {
    r := WaitOnDeadBuilder(key, Policy(0.2, 0.5, 0.1), built);
  }

  /**
    Which valid policies let a waiter outlive a dead builder's lock, whenever it
    was taken: exactly those with a whole number of seconds from lease to wait,
    both ends included.
  */
  lemma WaitOutlivesLeaseExactly(p: Policy)
    requires ValidPolicy(p)
    ensures (forall taken, now :: taken <= now ==> !StillLocked(p, taken, now)) <==> p.waitSeconds >= Ttl(p.leaseSeconds)
    ensures p.waitSeconds >= Ttl(p.leaseSeconds) <==> exists seconds: nat :: WholeSecondsWithin(seconds, p)
  {
    assert StillLocked(p, 0.0, 0.0) <==> p.waitSeconds < Ttl(p.leaseSeconds);
    var ceiling := -((-p.leaseSeconds).Floor);
    assert ceiling >= 1 && p.leaseSeconds <= ceiling as Time;
    var whole: nat := ceiling;
    if p.waitSeconds >= Ttl(p.leaseSeconds) {
      assert WholeSecondsWithin(whole, p);
    }
    forall seconds: nat | WholeSecondsWithin(seconds, p)
      ensures Ttl(p.leaseSeconds) <= seconds as Time
    {
      var negated: int := 0 - seconds as int;
      assert negated as Time <= -p.leaseSeconds;
      assert negated <= (-p.leaseSeconds).Floor;
    }
  }

  /** A lock taken then with the policy's lease would be there a whole wait after now. */
  predicate StillLocked(p: Policy, taken: Time, now: Time) {
    now + p.waitSeconds < taken + Ttl(p.leaseSeconds)
  }

  predicate WholeSecondsWithin(seconds: nat, p: Policy) {
    seconds >= 1 && p.leaseSeconds <= seconds as Time <= p.waitSeconds
  }
}
