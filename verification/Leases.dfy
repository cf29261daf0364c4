/**
  The lease of a live run in the protocol: it is always one lease length after
  the last claim or extension, nobody else can change a row whose lease is live,
  and so a run whose heartbeats reach the database often enough is never taken
  over.
*/
module Leases {
  import opened Prelude
  import opened Rows
  import opened Reconciliation
  import opened Protocol
  import opened Delivery
  import opened Heartbeat

  // -------------------------------------------------------------- invariant

  /** A processing row is leased for one lease length from its last heartbeat. */
  predicate LeaseOk(c: Config, sh: Shared) {
    sh.row.Some? && sh.row.value.status == Processing ==>
      && sh.row.value.heartbeatAt.Some?
      && sh.row.value.lease == Some(sh.row.value.heartbeatAt.value + c.leaseSeconds)
  }

  /** Claims and extensions take the configured lease; nothing else makes a row processing. */
  predicate KeepsLength(c: Config, u: RowUpdate) {
    match u
    case Claim(_, leaseSeconds) => leaseSeconds == c.leaseSeconds
    case Extend(_, leaseSeconds) => leaseSeconds == c.leaseSeconds
    case Fail(m) => m.target != Processing
    case Reconcile(m) => m.target != Processing
    case _ => true
  }

  lemma UpdateKeepsLease(c: Config, now: Time, sh: Shared, u: RowUpdate, budgeted: bool)
    requires LeaseOk(c, sh) && KeepsLength(c, u)
    ensures LeaseOk(c, PerformUpdate(now, sh, u, budgeted))
  {
    match u {
      case RecordStep(_, step, _) =>
      case _ =>
    }
  }

  lemma HandlerKeepsLength(c: Config, now: Time, sh: Shared, h: Handler, e: Effect, h': Option<Handler>)
    requires HandlerStep(c, now, sh, h, e, h')
    ensures e.RowEffect? ==> KeepsLength(c, e.update) && Speaker(e.update) == Some(h.worker)
    ensures e.RowEffect? || Perform(now, sh, e).row == sh.row
  {
    assert e.Nothing? || e.RowEffect? || e.SendCodes? || e.RemoveMessage?;
  }

  lemma ConclusionKeepsLease(c: Config, now: Time, sh: Shared, o: Observation)
    requires LeaseOk(c, sh)
    ensures LeaseOk(c, PerformConclusion(now, sh, o))
  {
    match DecideMaxDelivery(o.state) {
      case FailWith(m) => UpdateKeepsLease(c, now, sh, Reconcile(m), false);
      case _ =>
    }
  }

  lemma StepKeepsLease(c: Config, now: Time, s: World, a: Action)
    requires LeaseOk(c, s.shared) && Enabled(c, now, s, a)
    ensures LeaseOk(c, After(now, s, a).shared)
  {
    hide HandlerStep, PerformUpdate, PerformConclusion;
    match a {
      case Deliver(_, _, _) =>
      case Handle(id, e, h') =>
        HandlerKeepsLength(c, now, s.shared, s.handlers[id], e, h');
        if e.RowEffect? {
          UpdateKeepsLease(c, now, s.shared, e.update, e.budgeted);
        }
      case Env(e) =>
        if e.Conclude? {
          ConclusionKeepsLease(c, now, s.shared, e.observation);
        }
    }
  }

  /** The lease of a processing row is its last heartbeat plus the lease length, after every history. */
  lemma {:induction false} LeaseFollowsHeartbeat(c: Config, start: Time, init: World, history: seq<Happening>)
    requires LeaseOk(c, init.shared) && Possible(c, start, init, history)
    ensures LeaseOk(c, WorldAfter(init, history).shared)
    decreases |history|
  {
    if history != [] {
      var before := history[..|history| - 1];
      LeaseFollowsHeartbeat(c, start, init, before);
      StepKeepsLease(c, history[|history| - 1].at, WorldAfter(init, before), history[|history| - 1].action);
    }
  }

  // ------------------------------------------------------------- live leases

  /** The row is `w`'s, and its lease is live at `now`. */
  predicate Holds(sh: Shared, w: WorkerId, now: Time) {
    sh.row.Some? && Owned(sh.row.value, w) && sh.row.value.lease.Some? && sh.row.value.lease.value >= now
  }

  /** No update of another worker, and no claim of anybody, matches a row with a live lease. */
  lemma StrangersMatchNothing(now: Time, sh: Shared, u: RowUpdate, w: WorkerId)
    requires Holds(sh, w, now) && (u.Claim? || (Speaker(u).Some? && Speaker(u) != Some(w)))
    ensures !Matches(now, sh, u)
  {
    match u {
      case RecordStep(_, step, _) =>
      case _ =>
    }
  }

  /** Neither does anything in the environment: not retention, nor a conclusion from any old observation. */
  lemma EnvironmentKeepsHeldRow(c: Config, now: Time, sh: Shared, e: Effect, w: WorkerId)
    requires SharedOk(c, now, sh) && Holds(sh, w, now) && Environment(sh, e)
    ensures Perform(now, sh, e).row == sh.row
  {
    match e {
      case Conclude(o) => assert ObservationOk(now, sh, o);
      case _ =>
    }
  }

  /**
    The interference a fence by worker cannot exclude: another delivery of the
    same worker commits something other than a claim.
  */
  predicate ColleaguesKeepOut(at: Time, s: World, a: Action, id: HandlerId, w: WorkerId) {
    && a.Handle? && a.handler != id && a.handler in s.handlers && s.handlers[a.handler].worker == w
    && a.effect.RowEffect? && !a.effect.update.Claim?
    ==> !Matches(at, s.shared, a.effect.update)
  }

  /** While `w` holds the row, nobody but handler `id` itself changes it. */
  lemma OthersKeepHeldRow(c: Config, now: Time, s: World, a: Action, id: HandlerId, w: WorkerId)
    requires WorldOk(c, now, s) && Holds(s.shared, w, now) && Enabled(c, now, s, a)
    requires !(a.Handle? && a.handler == id) && ColleaguesKeepOut(now, s, a, id, w)
    ensures After(now, s, a).shared.row == s.shared.row
  {
    hide HandlerStep, Environment;
    match a {
      case Deliver(_, _, _) =>
      case Handle(other, e, h') =>
        HandlerKeepsLength(c, now, s.shared, s.handlers[other], e, h');
        if e.RowEffect? && (e.update.Claim? || s.handlers[other].worker != w) {
          StrangersMatchNothing(now, s.shared, e.update, w);
        }
      case Env(e) => EnvironmentKeepsHeldRow(c, now, s.shared, e, w);
    }
  }

  // ----------------------------------------------------------- the timed run

  /** The run `id` is going. */
  predicate Going(s: World, id: HandlerId, w: WorkerId) {
    id in s.handlers && s.handlers[id].worker == w && Running(s.handlers[id])
  }

  /** A heartbeat of the run reaches the database; what it finds there is not said. */
  predicate IsBeat(c: Config, a: Action, id: HandlerId, w: WorkerId) {
    a.Handle? && a.handler == id && a.effect == RowEffect(Extend(w, c.leaseSeconds), false)
  }

  /** When the run last reached the database with a heartbeat, or its claim. */
  function LastBeat(c: Config, claimedAt: Time, tail: seq<Happening>, id: HandlerId, w: WorkerId): Time {
    if tail == [] then claimedAt
    else
      var last := tail[|tail| - 1];
      if IsBeat(c, last.action, id, w) then last.at
      else LastBeat(c, claimedAt, tail[..|tail| - 1], id, w)
  }

  /** At time `at`, n ticks have passed and the last of them that was not unreachable was the last beat. */
  predicate OnTime(claimedAt: Time, ticks: seq<Tick>, t: Timing, n: nat, at: Time, lastBeat: Time) {
    && n <= |ticks|
    && TickTime(claimedAt, n, t) <= at <= TickTime(claimedAt, n + 1, t)
    && lastBeat == TickTime(claimedAt, LastReached(ticks, n), t)
  }

  /** Up to its last happening the run is going, beats as `ticks` say, and colleagues keep out. */
  ghost predicate Timed(c: Config, t: Timing, ticks: seq<Tick>, claimedAt: Time, s: World, tail: seq<Happening>,
                        id: HandlerId, w: WorkerId)
  {
    tail == [] ||
    (var before := tail[..|tail| - 1];
     var last := tail[|tail| - 1];
     && Timed(c, t, ticks, claimedAt, s, before, id, w)
     && Going(WorldAfter(s, before), id, w)
     && (exists n :: OnTime(claimedAt, ticks, t, n, last.at, LastBeat(c, claimedAt, before, id, w)))
     && ColleaguesKeepOut(last.at, WorldAfter(s, before), last.action, id, w))
  }

  /** On time means before the lease that the last beat took runs out. */
  lemma OnTimeIsLeased(claimedAt: Time, ticks: seq<Tick>, t: Timing, n: nat, at: Time, lastBeat: Time)
    requires ValidTiming(t) && NoTwoInARow(ticks) && OnTime(claimedAt, ticks, t, n, at, lastBeat)
    ensures at < lastBeat + t.lease
  {
    ReachedWithinLease(claimedAt, ticks, n, t);
  }

  /** The row is `w`'s and leased for one lease length from `beat`. */
  predicate HeldFrom(c: Config, sh: Shared, w: WorkerId, beat: Time) {
    sh.row.Some? && Owned(sh.row.value, w) && sh.row.value.lease == Some(beat + c.leaseSeconds)
  }

  /** A step of the run that goes on keeps the row, and only a beat moves its lease. */
  lemma OwnStepKeepsHold(c: Config, now: Time, s: World, a: Action, id: HandlerId, w: WorkerId, beat: Time)
    requires HeldFrom(c, s.shared, w, beat) && Enabled(c, now, s, a) && a.Handle? && a.handler == id
    requires Going(s, id, w) && Going(After(now, s, a), id, w)
    ensures HeldFrom(c, After(now, s, a).shared, w, if IsBeat(c, a, id, w) then now else beat)
  {
    var h, e := s.handlers[id], a.effect;
    OwnStepKinds(c, now, s.shared, h, e, a.next);
    match e {
      case RowEffect(RecordStep(_, step, _), _) =>
      case _ =>
    }
  }

  lemma OwnStepKinds(c: Config, now: Time, sh: Shared, h: Handler, e: Effect, h': Option<Handler>)
    requires HandlerStep(c, now, sh, h, e, h') && Running(h) && h'.Some? && Running(h'.value)
    ensures e.Nothing? || e.SendCodes? || e == RowEffect(Extend(h.worker, c.leaseSeconds), false)
         || (e.RowEffect? && (e.update.Persist? || e.update.RecordStep?))
  {
  }

  /** Invariant of the timed run: as long as it is going it holds the row, leased from its last beat. */
  lemma {:induction false} RunHolds(c: Config, t: Timing, ticks: seq<Tick>, claimedAt: Time, s: World, tail: seq<Happening>,
                                    id: HandlerId, w: WorkerId)
    requires ValidConfig(c) && ValidTiming(t) && c.leaseSeconds == t.lease && NoTwoInARow(ticks)
    requires WorldOk(c, claimedAt, s) && HeldFrom(c, s.shared, w, claimedAt) && Possible(c, claimedAt, s, tail)
    requires Timed(c, t, ticks, claimedAt, s, tail, id, w) && Going(WorldAfter(s, tail), id, w)
    ensures HeldFrom(c, WorldAfter(s, tail).shared, w, LastBeat(c, claimedAt, tail, id, w))
    decreases |tail|
  {
    if tail != [] {
      var before, last := tail[..|tail| - 1], tail[|tail| - 1];
      var mid := WorldAfter(s, before);
      RunHolds(c, t, ticks, claimedAt, s, before, id, w);
      var beat := LastBeat(c, claimedAt, before, id, w);
      if last.action.Handle? && last.action.handler == id {
        OwnStepKeepsHold(c, last.at, mid, last.action, id, w, beat);
      } else {
        NextFindsHold(c, t, ticks, claimedAt, s, before, last, id, w);
        OthersKeepHeldRow(c, last.at, mid, last.action, id, w);
      }
    }
  }

  /** Before the next happening the invariant of the worlds holds, and the lease is live. */
  lemma NextFindsHold(c: Config, t: Timing, ticks: seq<Tick>, claimedAt: Time, s: World, before: seq<Happening>,
                      next: Happening, id: HandlerId, w: WorkerId)
    requires ValidConfig(c) && ValidTiming(t) && c.leaseSeconds == t.lease && NoTwoInARow(ticks)
    requires WorldOk(c, claimedAt, s) && Possible(c, claimedAt, s, before) && ClockAfter(claimedAt, before) <= next.at
    requires HeldFrom(c, WorldAfter(s, before).shared, w, LastBeat(c, claimedAt, before, id, w))
    requires exists n :: OnTime(claimedAt, ticks, t, n, next.at, LastBeat(c, claimedAt, before, id, w))
    ensures WorldOk(c, next.at, WorldAfter(s, before)) && Holds(WorldAfter(s, before).shared, w, next.at)
  {
    AlwaysOk(c, claimedAt, s, before);
    LaterWorldOk(c, ClockAfter(claimedAt, before), next.at, WorldAfter(s, before));
    var n :| OnTime(claimedAt, ticks, t, n, next.at, LastBeat(c, claimedAt, before, id, w));
    OnTimeIsLeased(claimedAt, ticks, t, n, next.at, LastBeat(c, claimedAt, before, id, w));
  }

  /** A claim that goes on to a run has taken the row. */
  lemma ClaimHolds(c: Config, now: Time, s: World, id: HandlerId, e: Effect, h': Option<Handler>)
    requires id in s.handlers && HandlerStep(c, now, s.shared, s.handlers[id], e, h')
    requires s.handlers[id].pc.Claiming? && h'.Some? && Running(h'.value)
    ensures HeldFrom(c, After(now, s, Handle(id, e, h')).shared, s.handlers[id].worker, now)
  {
  }

  /** The claim of delivery `id` to worker `w` goes on to a run. */
  predicate StartsRun(s: World, claim: Action, id: HandlerId, w: WorkerId) {
    && claim.Handle? && claim.handler == id && id in s.handlers
    && s.handlers[id].worker == w && s.handlers[id].pc == Claiming
    && claim.next.Some? && Running(claim.next.value)
  }

  /** At `next` the row is held under a live lease, only the run itself changes it, and a beat finds it owned. */
  predicate KeepsItsRow(c: Config, s: World, next: Happening, id: HandlerId, w: WorkerId)
  {
    && Holds(s.shared, w, next.at)
    && (!(next.action.Handle? && next.action.handler == id) ==> RowAfter(next.at, s, next.action) == s.shared.row)
    && (IsBeat(c, next.action, id, w) ==> Matches(next.at, s.shared, next.action.effect.update))
  }

  function RowAfter(at: Time, s: World, a: Action): Option<Row> {
    match a
    case Deliver(_, _, _) => s.shared.row
    case Handle(_, e, _) => Perform(at, s.shared, e).row
    case Env(e) => Perform(at, s.shared, e).row
  }

  /**
    Never taken over.  In any history, let a delivery's claim succeed; let its
    run beat as `ticks` say, never missing two beats in a row, with
    2 heartbeats < ack wait < lease; and let no other delivery of the same
    worker commit anything but claims.  Then at whatever happens next the run
    still holds the row under a live lease, nobody else - no worker, no
    publisher, no retention, no reconciler concluding from however old an
    observation - changes the row, and a heartbeat that reaches the database
    finds the row owned.
  */
  lemma {:induction false} NeverTakenOver(c: Config, t: Timing, ticks: seq<Tick>, start: Time, exceptionId: string, targetVersion: int,
                                          history: seq<Happening>, claim: Happening, tail: seq<Happening>, next: Happening,
                                          id: HandlerId, w: WorkerId)
    requires ValidConfig(c) && ValidTiming(t) && c.leaseSeconds == t.lease && NoTwoInARow(ticks)
    requires Possible(c, start, InitialWorld(exceptionId, targetVersion), history + [claim])
    requires StartsRun(WorldAfter(InitialWorld(exceptionId, targetVersion), history), claim.action, id, w)
    requires var s := WorldAfter(InitialWorld(exceptionId, targetVersion), history + [claim]);
             Possible(c, claim.at, s, tail + [next]) && Timed(c, t, ticks, claim.at, s, tail + [next], id, w)
    ensures KeepsItsRow(c, WorldAfter(WorldAfter(InitialWorld(exceptionId, targetVersion), history + [claim]), tail), next, id, w)
  {
    var init := InitialWorld(exceptionId, targetVersion);
    var claimed := history + [claim];
    assert claimed[..|claimed| - 1] == history;
    AdmissionOk(c, start, exceptionId, targetVersion);
    AlwaysOk(c, start, init, claimed);
    var s := WorldAfter(init, claimed);
    ClaimHolds(c, claim.at, WorldAfter(init, history), id, claim.action.effect, claim.action.next);
    var longer := tail + [next];
    assert longer[..|longer| - 1] == tail;
    RunHolds(c, t, ticks, claim.at, s, tail, id, w);
    NextFindsHold(c, t, ticks, claim.at, s, tail, next, id, w);
    if !(next.action.Handle? && next.action.handler == id) {
      OthersKeepHeldRow(c, next.at, WorldAfter(s, tail), next.action, id, w);
    }
  }

  lemma OneMore(c: Config, start: Time, init: World, history: seq<Happening>, next: Happening)
    requires Possible(c, start, init, history) && ClockAfter(start, history) <= next.at
    requires Enabled(c, next.at, WorldAfter(init, history), next.action)
    ensures Possible(c, start, init, history + [next]) && ClockAfter(start, history + [next]) == next.at
    ensures WorldAfter(init, history + [next]) == After(next.at, WorldAfter(init, history), next.action)
  {
    assert (history + [next])[..|history|] == history;
  }

  lemma NothingYet(c: Config, start: Time, init: World)
    ensures Possible(c, start, init, []) && WorldAfter(init, []) == init && ClockAfter(start, []) == start
  {
  }

  lemma ClaimedAtZero(c: Config, id: HandlerId, w: WorkerId) returns (history: seq<Happening>, claim: Happening, s: World)
    requires c == Config(30.0, 5, true, true)
    ensures Possible(c, 0.0, InitialWorld("EX-1", 1), history + [claim])
    ensures StartsRun(WorldAfter(InitialWorld("EX-1", 1), history), claim.action, id, w)
    ensures s == WorldAfter(InitialWorld("EX-1", 1), history + [claim]) && claim.at == 0.0
    ensures s.handlers == map[id := Handler(w, 1, Loading)] && s.shared.row.Some? && Owned(s.shared.row.value, w)
  {
    hide Possible, WorldAfter, ClockAfter;
    var init := InitialWorld("EX-1", 1);
    var store, deliver := Happening(0.0, Env(StoreMessage(true))), Happening(0.0, Deliver(id, w, 1));
    NothingYet(c, 0.0, init);
    OneMore(c, 0.0, init, [], store);
    OneMore(c, 0.0, init, [] + [store], deliver);
    history := [] + [store] + [deliver];
    var waiting := WorldAfter(init, history);
    assert waiting.handlers == map[id := Handler(w, 1, Claiming)] && waiting.shared.row == Some(NewRow("EX-1"));
    claim := Happening(0.0, Handle(id, RowEffect(Claim(w, 30.0), false), Goto(waiting.handlers[id], Loading)));
    assert Proceeds(c, 0.0, waiting.shared, waiting.handlers[id], claim.action.effect, claim.action.next);
    OneMore(c, 0.0, init, history, claim);
    s := WorldAfter(init, history + [claim]);
  }

  /** There are such runs: a delivery claimed at 0.0 whose first heartbeat comes at 10.0, with heartbeat 10 and lease 30. */
  lemma TimedRunHappens(c: Config, t: Timing, id: HandlerId, w: WorkerId)
    returns (history: seq<Happening>, claim: Happening, beat: Happening)
    requires c == Config(30.0, 5, true, true) && t == Timing(10.0, 25.0, 30.0)
    ensures ValidConfig(c) && ValidTiming(t) && NoTwoInARow([Extended]) && IsBeat(c, beat.action, id, w)
    ensures Possible(c, 0.0, InitialWorld("EX-1", 1), history + [claim])
    ensures StartsRun(WorldAfter(InitialWorld("EX-1", 1), history), claim.action, id, w)
    ensures Possible(c, claim.at, WorldAfter(InitialWorld("EX-1", 1), history + [claim]), [] + [beat])
    ensures Timed(c, t, [Extended], claim.at, WorldAfter(InitialWorld("EX-1", 1), history + [claim]), [] + [beat], id, w)
  {
    var s: World;
    history, claim, s := ClaimedAtZero(c, id, w);
    beat := Happening(10.0, Handle(id, RowEffect(Extend(w, 30.0), false), Some(s.handlers[id])));
    FirstBeatTimed(c, t, id, w, s, beat);
    hide *;
  }

  lemma FirstBeatTimed(c: Config, t: Timing, id: HandlerId, w: WorkerId, s: World, beat: Happening)
    requires c == Config(30.0, 5, true, true) && t == Timing(10.0, 25.0, 30.0)
    requires s.handlers == map[id := Handler(w, 1, Loading)] && s.shared.row.Some? && Owned(s.shared.row.value, w)
    requires beat == Happening(10.0, Handle(id, RowEffect(Extend(w, 30.0), false), Some(s.handlers[id])))
    ensures Possible(c, 0.0, s, [] + [beat]) && Timed(c, t, [Extended], 0.0, s, [] + [beat], id, w)
    ensures ValidConfig(c) && ValidTiming(t) && NoTwoInARow([Extended]) && IsBeat(c, beat.action, id, w)
  {
    assert Befalls(c, 10.0, s.shared, s.handlers[id], beat.action.effect, beat.action.next);
    NothingYet(c, 0.0, s);
    OneMore(c, 0.0, s, [], beat);
    assert ([] + [beat])[..0] == [];
    assert OnTime(0.0, [Extended], t, 0, 10.0, LastBeat(c, 0.0, [], id, w));
    hide HandlerStep, Perform;
  }
}
