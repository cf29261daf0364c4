/**
  What every history of one investigation keeps, with no assumption on how many
  runs are live: the row is well formed, no trigger is lost, the retry budget
  holds, and the reconciler never fails a live lease.
*/
module Delivery {
  import opened Prelude
  import opened Rows
  import opened Reconciliation
  import opened Protocol

  // -------------------------------------------------------------- invariant

  /** An observation stays honest: whatever changed the lease since left it later than the reading. */
  ghost predicate ObservationOk(now: Time, sh: Shared, o: Observation) {
    && o.at <= now
    && o.claimsThen <= sh.claims
    && o.extensionsThen <= sh.extensions
    && (o.state.None? ==> sh.row.None?)
    && (o.state.Some? ==>
          && o.state.value.observedAt == o.at
          && (Terminal(o.state.value.status) ==> Settled(sh))
          && (o.state.value.status == Processing ==> o.state.value.workerId.Some? && o.state.value.lease.Some?)
          && (o.state.value.status == Queued ==> o.state.value.workerId.None? && o.state.value.lease.None?)
          && (o.state.value.status == Processing && sh.row.Some? && sh.row.value.status == Processing ==>
                if sh.claims == o.claimsThen && sh.extensions == o.extensionsThen
                then sh.row.value.workerId == o.state.value.workerId && sh.row.value.lease == o.state.value.lease
                else sh.row.value.lease.Some? && sh.row.value.lease.value > o.at))
  }

  ghost predicate RowPart(c: Config, sh: Shared) {
    && sh.retries <= c.maxAttempts - 1
    && sh.retries <= sh.claims
    && (sh.row.Some? ==>
          && RowOk(sh.row.value)
          && sh.row.value.attemptCount == sh.claims
          && (sh.row.value.status == Processing ==> sh.retries < sh.claims))
  }

  ghost predicate TriggerPart(sh: Shared) {
    && (sh.event == Unpublished || sh.stored)
    && (sh.publisherAcked ==> sh.stored)
    && (sh.stored && sh.stream == {} ==> Settled(sh))
    && (sh.cleanup ==> Settled(sh))
  }

  ghost predicate SharedOk(c: Config, now: Time, sh: Shared) {
    && RowPart(c, sh)
    && TriggerPart(sh)
    && (forall o :: o in sh.observations ==> ObservationOk(now, sh, o))
  }

  predicate HandlerOk(sh: Shared, h: Handler) {
    h.pc == Acking || h.pc == Terming ==> Settled(sh)
  }

  ghost predicate WorldOk(c: Config, now: Time, s: World) {
    && SharedOk(c, now, s.shared)
    && (forall id :: id in s.handlers ==> HandlerOk(s.shared, s.handlers[id]))
  }

  // ---------------------------------------------------------------- effects

  /** The effects that occur: what handlers do and what the environment does. */
  ghost predicate Permitted(c: Config, sh: Shared, e: Effect) {
    match e
    case Nothing => true
    case RowEffect(u, budgeted) =>
      && UpdateOk(u)
      && !u.Reconcile?
      && (budgeted && u.Fail? && u.failure.target == Queued ==> u.failure.expectedAttempt < c.maxAttempts)
    case SendCodes(_) => true
    case RemoveMessage(_) => Settled(sh)
    case _ => Environment(sh, e)
  }

  lemma UpdateKeepsRowPart(c: Config, now: Time, sh: Shared, u: RowUpdate, budgeted: bool)
    requires ValidConfig(c) && RowPart(c, sh) && UpdateOk(u)
    requires budgeted && u.Fail? && u.failure.target == Queued ==> u.failure.expectedAttempt < c.maxAttempts
    ensures RowPart(c, PerformUpdate(now, sh, u, budgeted))
    ensures Settled(sh) ==> PerformUpdate(now, sh, u, budgeted) == sh
  {
    if Matches(now, sh, u) {
      UpdateKeepsRowOk(sh.row.value, u, now);
      if Settled(sh) {
        TerminalAbsorbs(sh.row.value, u, now);
      }
      match u {
        case RecordStep(_, step, _) =>
        case _ =>
      }
    }
  }

  lemma UpdateKeepsObservation(c: Config, now: Time, sh: Shared, u: RowUpdate, budgeted: bool, o: Observation)
    requires RowPart(c, sh) && UpdateOk(u) && ObservationOk(now, sh, o)
    ensures ObservationOk(now, PerformUpdate(now, sh, u, budgeted), o)
  {
    if Matches(now, sh, u) {
      UpdateKeepsRowOk(sh.row.value, u, now);
      if Settled(sh) {
        TerminalAbsorbs(sh.row.value, u, now);
      }
      match u {
        case RecordStep(_, step, _) =>
        case _ =>
      }
    }
  }

  lemma UpdateKeepsShared(c: Config, now: Time, sh: Shared, u: RowUpdate, budgeted: bool)
    requires ValidConfig(c) && SharedOk(c, now, sh) && UpdateOk(u)
    requires budgeted && u.Fail? && u.failure.target == Queued ==> u.failure.expectedAttempt < c.maxAttempts
    ensures SharedOk(c, now, PerformUpdate(now, sh, u, budgeted))
    ensures Settled(sh) ==> PerformUpdate(now, sh, u, budgeted) == sh
  {
    var sh' := PerformUpdate(now, sh, u, budgeted);
    UpdateKeepsRowPart(c, now, sh, u, budgeted);
    assert sh'.observations == sh.observations;
    forall o | o in sh'.observations
      ensures ObservationOk(now, sh', o)
    {
      UpdateKeepsObservation(c, now, sh, u, budgeted, o);
    }
  }

  lemma CleanupKeepsShared(c: Config, now: Time, sh: Shared)
    requires SharedOk(c, now, sh) && Settled(sh)
    ensures SharedOk(c, now, sh.(cleanup := true))
  {
    var sh' := sh.(cleanup := true);
    forall o | o in sh'.observations
      ensures ObservationOk(now, sh', o)
    {
      assert ObservationOk(now, sh, o);
    }
  }

  lemma FailedIsSettled(now: Time, sh: Shared, m: ReconciliationMutation)
    requires m.target == Failed && Matches(now, sh, Reconcile(m))
    ensures Settled(PerformUpdate(now, sh, Reconcile(m), false))
  {
  }

  /** A reading of a terminal or missing row stays true. */
  lemma SettledReading(c: Config, now: Time, sh: Shared, o: Observation)
    requires SharedOk(c, now, sh) && o in sh.observations
    ensures DecideMaxDelivery(o.state).Missing? || DecideMaxDelivery(o.state).AlreadyTerminal? ==> Settled(sh)
  {
    assert ObservationOk(now, sh, o);
  }

  /** Committing a conclusion keeps the invariant, and cleanup is only ever allowed once settled. */
  lemma ConclusionKeepsShared(c: Config, now: Time, sh: Shared, o: Observation)
    requires ValidConfig(c) && SharedOk(c, now, sh) && o in sh.observations
    ensures SharedOk(c, now, PerformConclusion(now, sh, o))
    ensures Settled(sh) ==> Settled(PerformConclusion(now, sh, o))
  {
    SettledReading(c, now, sh, o);
    hide SharedOk, PerformUpdate;
    match DecideMaxDelivery(o.state) {
      case FailWith(m) =>
        if Matches(now, sh, Reconcile(m)) {
          UpdateKeepsShared(c, now, sh, Reconcile(m), false);
          FailedIsSettled(now, sh, m);
          CleanupKeepsShared(c, now, PerformUpdate(now, sh, Reconcile(m), false));
        }
      case Deferred =>
      case _ => CleanupKeepsShared(c, now, sh);
    }
  }

  /** A reading is honest when it is made. */
  lemma ObservingKeepsShared(c: Config, now: Time, sh: Shared)
    requires SharedOk(c, now, sh)
    ensures SharedOk(c, now, Perform(now, sh, Observe))
  {
    var sh' := Perform(now, sh, Observe);
    forall o | o in sh'.observations
      ensures ObservationOk(now, sh', o)
    {
      if o in sh.observations {
        assert ObservationOk(now, sh, o);
      }
    }
  }

  /** The effects that leave the row alone, or delete it when it is terminal. */
  lemma BystanderKeepsShared(c: Config, now: Time, sh: Shared, e: Effect)
    requires SharedOk(c, now, sh) && Permitted(c, sh, e) && !e.RowEffect? && !e.Conclude? && !e.Observe?
    ensures SharedOk(c, now, Perform(now, sh, e))
    ensures Settled(sh) ==> Settled(Perform(now, sh, e))
  {
    var sh' := Perform(now, sh, e);
    assert sh'.observations == sh.observations && sh'.claims == sh.claims && sh'.extensions == sh.extensions;
    assert sh'.row == sh.row || (sh'.row.None? && Settled(sh));
    forall o | o in sh'.observations
      ensures ObservationOk(now, sh', o)
    {
      assert ObservationOk(now, sh, o);
    }
  }

  lemma EffectKeepsShared(c: Config, now: Time, sh: Shared, e: Effect)
    requires ValidConfig(c) && SharedOk(c, now, sh) && Permitted(c, sh, e)
    ensures SharedOk(c, now, Perform(now, sh, e))
    ensures Settled(sh) ==> Settled(Perform(now, sh, e))
  {
    hide SharedOk, PerformUpdate, PerformConclusion;
    match e {
      case RowEffect(u, budgeted) => UpdateKeepsShared(c, now, sh, u, budgeted);
      case Conclude(o) => ConclusionKeepsShared(c, now, sh, o);
      case Observe => ObservingKeepsShared(c, now, sh);
      case _ => BystanderKeepsShared(c, now, sh, e);
    }
  }

  lemma EnvironmentPermitted(c: Config, now: Time, sh: Shared, e: Effect)
    requires SharedOk(c, now, sh) && Environment(sh, e)
    ensures Permitted(c, sh, e)
  {
  }

  lemma LaterObservationsOk(c: Config, now: Time, later: Time, sh: Shared)
    requires SharedOk(c, now, sh) && now <= later
    ensures SharedOk(c, later, sh)
  {
  }

  // --------------------------------------------------------------- handlers

  /** A handler only does permitted things; it acks or terms only what is settled when it gets there. */
  lemma HandlerStepOk(c: Config, now: Time, sh: Shared, h: Handler, e: Effect, h': Option<Handler>)
    requires ValidConfig(c) && SharedOk(c, now, sh) && HandlerOk(sh, h) && HandlerStep(c, now, sh, h, e, h')
    ensures Permitted(c, sh, e)
    ensures h'.Some? ==> HandlerOk(Perform(now, sh, e), h'.value)
  {
    hide SharedOk, Proceeds;
    if Proceeds(c, now, sh, h, e, h') {
      ProceedsOk(c, now, sh, h, e, h');
    } else if h.pc.FailApplying? && Proceeds(c, now, sh, h, e, Goto(h, Terming)) {
      ProceedsOk(c, now, sh, h, e, Goto(h, Terming));
    }
  }

  lemma ProceedsOk(c: Config, now: Time, sh: Shared, h: Handler, e: Effect, h': Option<Handler>)
    requires ValidConfig(c) && SharedOk(c, now, sh) && HandlerOk(sh, h) && Proceeds(c, now, sh, h, e, h')
    ensures Permitted(c, sh, e)
    ensures h'.Some? ==> HandlerOk(Perform(now, sh, e), h'.value)
  {
    hide SharedOk;
    match h.pc {
      case FailApplying(_, _) => FailApplyingOk(c, now, sh, h, e, h');
      case _ =>
    }
  }

  /** The recorder's transition: within the budget if it requeues, and terming only what it failed. */
  lemma FailApplyingOk(c: Config, now: Time, sh: Shared, h: Handler, e: Effect, h': Option<Handler>)
    requires ValidConfig(c) && SharedOk(c, now, sh) && h.pc.FailApplying? && Proceeds(c, now, sh, h, e, h')
    ensures Permitted(c, sh, e)
    ensures h'.Some? ==> HandlerOk(Perform(now, sh, e), h'.value)
  {
  }

  // ------------------------------------------------------------------ steps

  lemma StepKeepsWorldOk(c: Config, now: Time, s: World, a: Action)
    requires ValidConfig(c) && WorldOk(c, now, s) && Enabled(c, now, s, a)
    ensures WorldOk(c, now, After(now, s, a))
    ensures Settled(s.shared) ==> Settled(After(now, s, a).shared)
  {
    hide SharedOk, Perform, HandlerStep, Permitted;
    match a {
      case Deliver(_, _, _) =>
      case Handle(id, e, h') =>
        HandlerStepOk(c, now, s.shared, s.handlers[id], e, h');
        EffectKeepsShared(c, now, s.shared, e);
      case Env(e) =>
        EnvironmentPermitted(c, now, s.shared, e);
        EffectKeepsShared(c, now, s.shared, e);
    }
  }

  /** The invariant holds after every possible history. */
  lemma {:induction false} AlwaysOk(c: Config, start: Time, init: World, history: seq<Happening>)
    requires ValidConfig(c) && WorldOk(c, start, init) && Possible(c, start, init, history)
    ensures WorldOk(c, ClockAfter(start, history), WorldAfter(init, history))
    decreases |history|
  {
    if history != [] {
      var before := history[..|history| - 1];
      var last := history[|history| - 1];
      AlwaysOk(c, start, init, before);
      LaterObservationsOk(c, ClockAfter(start, before), last.at, WorldAfter(init, before).shared);
      StepKeepsWorldOk(c, last.at, WorldAfter(init, before), last.action);
    }
  }

  lemma AdmissionOk(c: Config, start: Time, exceptionId: string, targetVersion: int)
    requires ValidConfig(c)
    ensures WorldOk(c, start, InitialWorld(exceptionId, targetVersion))
  {
  }

  /** How a row can change in one step: it keeps its exception, and a terminal row stays or goes. */
  predicate RowEvolves(before: Option<Row>, after: Option<Row>) {
    after.Some? ==>
      && before.Some?
      && after.value.exceptionId == before.value.exceptionId
      && (Terminal(before.value.status) ==> after == before)
  }

  lemma EffectEvolvesRow(c: Config, now: Time, sh: Shared, e: Effect)
    requires ValidConfig(c) && SharedOk(c, now, sh) && Permitted(c, sh, e)
    ensures RowEvolves(sh.row, Perform(now, sh, e).row)
  {
    if Settled(sh) {
      SettledRowOnlyDeleted(c, now, sh, e);
    }
    match e {
      case RowEffect(u, _) =>
        if Matches(now, sh, u) {
          UpdateKeepsRowOk(sh.row.value, u, now);
        }
      case _ =>
    }
  }

  lemma StepEvolvesRow(c: Config, now: Time, s: World, a: Action)
    requires ValidConfig(c) && WorldOk(c, now, s) && Enabled(c, now, s, a)
    ensures RowEvolves(s.shared.row, After(now, s, a).shared.row)
  {
    match a {
      case Deliver(_, _, _) =>
      case Handle(id, e, h') =>
        HandlerStepOk(c, now, s.shared, s.handlers[id], e, h');
        EffectEvolvesRow(c, now, s.shared, e);
      case Env(e) =>
        EnvironmentPermitted(c, now, s.shared, e);
        EffectEvolvesRow(c, now, s.shared, e);
    }
  }

  lemma LaterWorldOk(c: Config, now: Time, later: Time, s: World)
    requires WorldOk(c, now, s) && now <= later
    ensures WorldOk(c, later, s)
  {
  }

  // --------------------------------------------------------------- theorems

  /**
    No lost trigger: after every history, an investigation that is still queued
    or processing has its unpublished event or a message in the stream.
  */
  lemma {:induction false} NoLostTrigger(c: Config, start: Time, exceptionId: string, targetVersion: int, history: seq<Happening>)
    requires ValidConfig(c) && Possible(c, start, InitialWorld(exceptionId, targetVersion), history)
    ensures var sh := WorldAfter(InitialWorld(exceptionId, targetVersion), history).shared;
            sh.row.Some? && Active(sh.row.value.status) ==> sh.event == Unpublished || sh.stream != {}
  {
    var init := InitialWorld(exceptionId, targetVersion);
    AdmissionOk(c, start, exceptionId, targetVersion);
    AlwaysOk(c, start, init, history);
  }

  /**
    Whatever takes a message out of the stream - an ack, a term or the
    reconciler's delete - finds the investigation terminal or gone, and the row
    never leaves that condition.
  */
  lemma {:induction false} MessagesGoOnlyWhenSettled(c: Config, start: Time, exceptionId: string, targetVersion: int,
                                  history: seq<Happening>, next: Happening)
    requires ValidConfig(c) && Possible(c, start, InitialWorld(exceptionId, targetVersion), history + [next])
    ensures var s := WorldAfter(InitialWorld(exceptionId, targetVersion), history);
            var s' := After(next.at, s, next.action);
            && (!(s.shared.stream <= s'.shared.stream) ==> Settled(s.shared))
            && (Settled(s.shared) ==> s'.shared.row == s.shared.row || s'.shared.row.None?)
  {
    var init := InitialWorld(exceptionId, targetVersion);
    var whole := history + [next];
    assert whole[..|whole| - 1] == history;
    AdmissionOk(c, start, exceptionId, targetVersion);
    AlwaysOk(c, start, init, history);
    var s := WorldAfter(init, history);
    LaterObservationsOk(c, ClockAfter(start, history), next.at, s.shared);
    StepKeepsWorldOk(c, next.at, s, next.action);
    hide SharedOk, Perform, HandlerStep, Permitted;
    match next.action {
      case Deliver(_, _, _) =>
      case Handle(id, e, h') =>
        HandlerStepOk(c, next.at, s.shared, s.handlers[id], e, h');
        RemovalSettled(c, next.at, s.shared, e);
      case Env(e) =>
        EnvironmentPermitted(c, next.at, s.shared, e);
        RemovalSettled(c, next.at, s.shared, e);
    }
  }

  lemma RemovalSettled(c: Config, now: Time, sh: Shared, e: Effect)
    requires ValidConfig(c) && SharedOk(c, now, sh) && Permitted(c, sh, e)
    ensures !(sh.stream <= Perform(now, sh, e).stream) ==> Settled(sh)
    ensures Settled(sh) ==> Perform(now, sh, e).row == sh.row || Perform(now, sh, e).row.None?
  {
    hide SharedOk, Perform, Permitted;
    if !(sh.stream <= Perform(now, sh, e).stream) {
      OnlyRemovalShrinksStream(c, now, sh, e);
    }
    if Settled(sh) {
      SettledRowOnlyDeleted(c, now, sh, e);
    }
  }

  lemma OnlyRemovalShrinksStream(c: Config, now: Time, sh: Shared, e: Effect)
    requires Permitted(c, sh, e) && !(sh.stream <= Perform(now, sh, e).stream)
    requires SharedOk(c, now, sh)
    ensures Settled(sh)
  {
    assert !e.RowEffect?;
  }

  /** A terminal row is absorbing: a permitted effect leaves it as it is or deletes it. */
  lemma SettledRowOnlyDeleted(c: Config, now: Time, sh: Shared, e: Effect)
    requires ValidConfig(c) && SharedOk(c, now, sh) && Permitted(c, sh, e) && Settled(sh)
    ensures Perform(now, sh, e).row == sh.row || Perform(now, sh, e).row.None?
  {
    match e {
      case RowEffect(u, budgeted) =>
        UpdateKeepsRowPart(c, now, sh, u, budgeted);
      case Conclude(o) =>
        assert ObservationOk(now, sh, o);
        match DecideMaxDelivery(o.state) {
          case FailWith(m) => UpdateKeepsRowPart(c, now, sh, Reconcile(m), false);
          case _ =>
        }
      case _ =>
    }
  }

  /** The effect of a happening. */
  function EffectOf(a: Action): Effect {
    match a
    case Deliver(_, _, _) => Nothing
    case Handle(_, e, _) => e
    case Env(e) => e
  }

  /** A claim that takes the row. */
  predicate TakesRow(s: World, h: Happening) {
    var e := EffectOf(h.action);
    e.RowEffect? && e.update.Claim? && Matches(h.at, s.shared, e.update)
  }

  /** The failure recorder queues the row again. */
  predicate Requeues(s: World, h: Happening) {
    var e := EffectOf(h.action);
    && e.RowEffect? && e.budgeted && e.update.Fail? && e.update.failure.target == Queued
    && Matches(h.at, s.shared, e.update)
  }

  /** How many happenings of a history took the row, and how many queued it again. */
  function Claims(init: World, history: seq<Happening>): nat {
    if history == [] then 0
    else
      var before := history[..|history| - 1];
      Claims(init, before) + if TakesRow(WorldAfter(init, before), history[|history| - 1]) then 1 else 0
  }

  function Retries(init: World, history: seq<Happening>): nat {
    if history == [] then 0
    else
      var before := history[..|history| - 1];
      Retries(init, before) + if Requeues(WorldAfter(init, before), history[|history| - 1]) then 1 else 0
  }

  lemma UpdateCounts(now: Time, sh: Shared, u: RowUpdate, budgeted: bool)
    ensures var sh' := PerformUpdate(now, sh, u, budgeted);
            && sh'.claims == sh.claims + (if u.Claim? && Matches(now, sh, u) then 1 else 0)
            && sh'.retries ==
               sh.retries + (if budgeted && u.Fail? && u.failure.target == Queued && Matches(now, sh, u) then 1 else 0)
  {
    hide Matches, UpdateRow;
    match u {
      case RecordStep(_, step, _) =>
      case _ =>
    }
  }

  lemma StepCounts(now: Time, s: World, a: Action)
    ensures var s' := After(now, s, a);
            && s'.shared.claims == s.shared.claims + (if TakesRow(s, Happening(now, a)) then 1 else 0)
            && s'.shared.retries == s.shared.retries + (if Requeues(s, Happening(now, a)) then 1 else 0)
  {
    hide PerformUpdate, Matches, DecideMaxDelivery;
    match EffectOf(a) {
      case RowEffect(u, budgeted) => UpdateCounts(now, s.shared, u, budgeted);
      case Conclude(o) =>
        var d := DecideMaxDelivery(o.state);
        if d.FailWith? {
          UpdateCounts(now, s.shared, Reconcile(d.mutation), false);
        }
      case _ =>
    }
  }

  /** The counters count what happened. */
  lemma {:induction false} CountersCount(init: World, history: seq<Happening>)
    ensures WorldAfter(init, history).shared.claims == init.shared.claims + Claims(init, history)
    ensures WorldAfter(init, history).shared.retries == init.shared.retries + Retries(init, history)
  {
    if history != [] {
      var before, last := history[..|history| - 1], history[|history| - 1];
      CountersCount(init, before);
      StepCounts(last.at, WorldAfter(init, before), last.action);
    }
  }

  /**
    Retry budget: attempt_count is the number of successful claims, and however
    takeovers, crashes and interrupted releases are interleaved the recorder
    commits at most max_attempts - 1 retries.
  */
  lemma {:induction false} RetryBudget(c: Config, start: Time, exceptionId: string, targetVersion: int, history: seq<Happening>)
    requires ValidConfig(c) && Possible(c, start, InitialWorld(exceptionId, targetVersion), history)
    ensures var sh := WorldAfter(InitialWorld(exceptionId, targetVersion), history).shared;
            && (sh.row.Some? ==> RowOk(sh.row.value) && sh.row.value.attemptCount == sh.claims)
            && sh.retries <= c.maxAttempts - 1
            && sh.retries <= sh.claims
    ensures var init := InitialWorld(exceptionId, targetVersion);
            var sh := WorldAfter(init, history).shared;
            && (sh.row.Some? ==> sh.row.value.attemptCount == Claims(init, history))
            && Retries(init, history) <= c.maxAttempts - 1
  {
    CountersCount(InitialWorld(exceptionId, targetVersion), history);
    AdmissionOk(c, start, exceptionId, targetVersion);
    AlwaysOk(c, start, InitialWorld(exceptionId, targetVersion), history);
  }

  /**
    Reconciler fence: a mutation decided from a processing row, applied however
    much later, succeeds exactly when the row is still processing and no claim
    or heartbeat has intervened; the lease it then fails is expired.
  */
  lemma {:induction false} ReconcilerFence(c: Config, start: Time, exceptionId: string, targetVersion: int, history: seq<Happening>, o: Observation)
    requires ValidConfig(c) && Possible(c, start, InitialWorld(exceptionId, targetVersion), history)
    requires o in WorldAfter(InitialWorld(exceptionId, targetVersion), history).shared.observations
    requires o.state.Some? && o.state.value.status == Processing && DecideMaxDelivery(o.state).FailWith?
    ensures var sh := WorldAfter(InitialWorld(exceptionId, targetVersion), history).shared;
            var now := ClockAfter(start, history);
            && (Matches(now, sh, Reconcile(DecideMaxDelivery(o.state).mutation)) <==>
                && sh.row.Some?
                && sh.row.value.status == Processing
                && sh.claims == o.claimsThen
                && sh.extensions == o.extensionsThen)
            && (Matches(now, sh, Reconcile(DecideMaxDelivery(o.state).mutation)) ==>
                sh.row.value.lease.Some? && sh.row.value.lease.value < now)
  {
    AdmissionOk(c, start, exceptionId, targetVersion);
    AlwaysOk(c, start, InitialWorld(exceptionId, targetVersion), history);
    var sh := WorldAfter(InitialWorld(exceptionId, targetVersion), history).shared;
    assert ObservationOk(ClockAfter(start, history), sh, o);
  }

  /**
    The same for a mutation decided from a queued row: at every later state it
    succeeds exactly when the row is queued then - be it queued again, after
    claims in between.  It never touches a claimed row.  (In the source a pass
    holds the row lock from its reading to its commit, so nothing comes between.)
  */
  lemma {:induction false} QueuedFence(c: Config, start: Time, exceptionId: string, targetVersion: int, history: seq<Happening>, o: Observation)
    requires ValidConfig(c) && Possible(c, start, InitialWorld(exceptionId, targetVersion), history)
    requires o in WorldAfter(InitialWorld(exceptionId, targetVersion), history).shared.observations
    requires o.state.Some? && o.state.value.status == Queued
    ensures DecideMaxDelivery(o.state).FailWith?
    ensures var sh := WorldAfter(InitialWorld(exceptionId, targetVersion), history).shared;
            Matches(ClockAfter(start, history), sh, Reconcile(DecideMaxDelivery(o.state).mutation))
            <==> sh.row.Some? && sh.row.value.status == Queued
  {
    AdmissionOk(c, start, exceptionId, targetVersion);
    AlwaysOk(c, start, InitialWorld(exceptionId, targetVersion), history);
    var sh := WorldAfter(InitialWorld(exceptionId, targetVersion), history).shared;
    assert ObservationOk(ClockAfter(start, history), sh, o);
  }

  /** No conclusion, from whatever observation, ever fails a row whose lease is still live. */
  lemma {:induction false} LiveLeaseNeverFailed(c: Config, start: Time, exceptionId: string, targetVersion: int, history: seq<Happening>, o: Observation)
    requires ValidConfig(c) && Possible(c, start, InitialWorld(exceptionId, targetVersion), history)
    requires o in WorldAfter(InitialWorld(exceptionId, targetVersion), history).shared.observations
    ensures var sh := WorldAfter(InitialWorld(exceptionId, targetVersion), history).shared;
            var now := ClockAfter(start, history);
            sh.row.Some? && sh.row.value.lease.Some? && sh.row.value.lease.value >= now
            ==> PerformConclusion(now, sh, o).row == sh.row
  {
    AdmissionOk(c, start, exceptionId, targetVersion);
    AlwaysOk(c, start, InitialWorld(exceptionId, targetVersion), history);
    var sh := WorldAfter(InitialWorld(exceptionId, targetVersion), history).shared;
    assert ObservationOk(ClockAfter(start, history), sh, o);
  }

  /** A handler's step leaves the outbox alone. */
  lemma HandlerLeavesEvent(c: Config, now: Time, sh: Shared, h: Handler, e: Effect, h': Option<Handler>)
    requires HandlerStep(c, now, sh, h, e, h')
    ensures Perform(now, sh, e).event == sh.event
  {
    assert e.Nothing? || e.RowEffect? || e.SendCodes? || e.RemoveMessage?;
    hide HandlerStep;
  }

  /**
    The outbox event is published only once the broker holds or has held its
    message, deleted only after it was published, and never anything else.
  */
  lemma EventLifecycle(c: Config, now: Time, s: World, a: Action)
    requires ValidConfig(c) && WorldOk(c, now, s) && Enabled(c, now, s, a)
    ensures var before, after := s.shared.event, After(now, s, a).shared.event;
            || after == before
            || (before == Unpublished && after == Published(now) && s.shared.stored)
            || (before.Published? && after == Expired)
  {
    hide HandlerStep, RowPart, ObservationOk;
    match a {
      case Deliver(_, _, _) =>
      case Handle(id, e, h') => HandlerLeavesEvent(c, now, s.shared, s.handlers[id], e, h');
      case Env(e) =>
    }
  }
}
