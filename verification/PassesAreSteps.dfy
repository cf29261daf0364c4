/**
  The passes of the reconciler, of retention and of the publisher, seen from one
  investigation, are steps of its protocol: what module Protocol lets the
  environment do is what those programs do.
*/
module PassesAreSteps {
  import opened Prelude
  import opened Rows
  import opened Reconciliation
  import opened Protocol
  import Outbox

  /** Effects in order. */
  function Through(now: Time, sh: Shared, effects: seq<Effect>): Shared
    decreases |effects|
  {
    if effects == [] then sh else Through(now, Perform(now, sh, effects[0]), effects[1..])
  }

  /** Each of them can happen when its turn comes. */
  predicate CanHappen(now: Time, sh: Shared, effects: seq<Effect>)
    decreases |effects|
  {
    effects == [] || (Environment(sh, effects[0]) && CanHappen(now, Perform(now, sh, effects[0]), effects[1..]))
  }

  lemma OneEffect(now: Time, sh: Shared, e: Effect)
    ensures Through(now, sh, [e]) == Perform(now, sh, e)
    ensures CanHappen(now, sh, [e]) <==> Environment(sh, e)
  {
    assert [e][1..] == [];
  }

  lemma TwoEffects(now: Time, sh: Shared, e: Effect, f: Effect)
    ensures Through(now, sh, [e, f]) == Perform(now, Perform(now, sh, e), f)
    ensures CanHappen(now, sh, [e, f]) <==> Environment(sh, e) && Environment(Perform(now, sh, e), f)
  {
    assert [e, f][1..] == [f];
    OneEffect(now, Perform(now, sh, e), f);
  }

  // --------------------------------------------------------- reconciliation

  /** What the pass reads of the row it has locked. */
  function Reading(now: Time, sh: Shared): Observation {
    Observation(if sh.row.None? then None else Some(ObserveRow(sh.row.value, now)), now, sh.claims, sh.extensions)
  }

  /**
    A reconciliation pass is a reading and its conclusion, with nothing in
    between: the row becomes what `ApplyDecisions` makes of it, and the cleanup
    of the message is allowed exactly when its outcome says so, if it was not
    before.
  */
  lemma PassObservesAndConcludes(now: Time, sh: Shared)
    requires sh.row.Some? ==> RowOk(sh.row.value)
    ensures var effects := [Observe, Conclude(Reading(now, sh))];
            var after := Through(now, sh, effects);
            && CanHappen(now, sh, effects)
            && after.row == (if sh.row.Some? && OutcomeFor(sh.row, now) == OutcomeFailed
                             then Some(DeliveryExhausted(sh.row.value, now)) else sh.row)
            && after.cleanup == (sh.cleanup || OutcomeFor(sh.row, now) in CLEANUP)
            && (OutcomeFor(sh.row, now) in CLEANUP ==> forall q :: Environment(after, RemoveMessage(q)))
  {
    TwoEffects(now, sh, Observe, Conclude(Reading(now, sh)));
    hide Through, CanHappen;
  }

  /** Retention deletes a row exactly when the protocol can, and then it is gone. */
  lemma RetentionDeletesRow(now: Time, sh: Shared, cutoff: Time)
    ensures Environment(sh, DeleteRow(cutoff)) <==> sh.row.Some? && Reconciliation.Expired(sh.row.value, cutoff)
    ensures Perform(now, sh, DeleteRow(cutoff)).row.None?
  {
  }

  // -------------------------------------------------------------- publishing

  /** The outbox row and the broker show what the protocol says of the event. */
  predicate Shows(row: Outbox.OutboxRow, broker: set<Outbox.EventId>, sh: Shared) {
    && sh.event == (if row.publishedAt.Some? then Published(row.publishedAt.value) else Unpublished)
    && (row.eventId in broker <==> sh.stored)
  }

  /** What an attempt does: the broker stores the message or drops a duplicate, and the commit of an acknowledged one. */
  function AttemptEffects(acknowledged: bool, had: bool, has: bool): seq<Effect> {
    (if has && !had then [StoreMessage(acknowledged)] else if acknowledged then [DropDuplicate] else [])
    + (if acknowledged then [CommitPublish] else [])
  }

  /** One attempt of the publisher that is committed. */
  lemma AttemptIsSteps(now: Time, row: Outbox.OutboxRow, later: Outbox.OutboxRow, acknowledged: bool,
                       broker: set<Outbox.EventId>, broker': set<Outbox.EventId>, sh: Shared)
    requires Shows(row, broker, sh) && row.publishedAt.None? && broker <= broker'
    requires Outbox.Attempted(row, later, acknowledged, now, broker')
    ensures var effects := AttemptEffects(acknowledged, row.eventId in broker, row.eventId in broker');
            CanHappen(now, sh, effects) && Shows(later, broker', Through(now, sh, effects))
  {
    hide Through, CanHappen;
    var stores := row.eventId in broker' && row.eventId !in broker;
    if acknowledged {
      var send := if stores then StoreMessage(true) else DropDuplicate;
      assert AttemptEffects(true, row.eventId in broker, row.eventId in broker') == [send, CommitPublish];
      TwoEffects(now, sh, send, CommitPublish);
    } else if stores {
      assert AttemptEffects(false, false, true) == [StoreMessage(false)];
      OneEffect(now, sh, StoreMessage(false));
    } else {
      assert AttemptEffects(false, row.eventId in broker, row.eventId in broker') == [];
      NoEffect(now, sh);
    }
  }

  lemma NoEffect(now: Time, sh: Shared)
    ensures Through(now, sh, []) == sh && CanHappen(now, sh, [])
  {
  }

  /** One that is rolled back: the row is as it was, and the broker keeps what it has. */
  lemma RollbackIsSteps(now: Time, row: Outbox.OutboxRow, acknowledged: bool,
                        broker: set<Outbox.EventId>, broker': set<Outbox.EventId>, sh: Shared)
    requires Shows(row, broker, sh) && row.publishedAt.None? && broker <= broker'
    requires acknowledged ==> row.eventId in broker'
    ensures var stores := row.eventId in broker' && row.eventId !in broker;
            var effects := (if stores then [StoreMessage(acknowledged)] else []) + [RollbackPublish];
            CanHappen(now, sh, effects) && Shows(row, broker', Through(now, sh, effects))
  {
    hide Through, CanHappen;
    if row.eventId in broker' && row.eventId !in broker {
      assert [StoreMessage(acknowledged)] + [RollbackPublish] == [StoreMessage(acknowledged), RollbackPublish];
      TwoEffects(now, sh, StoreMessage(acknowledged), RollbackPublish);
    } else {
      assert [] + [RollbackPublish] == [RollbackPublish];
      OneEffect(now, sh, RollbackPublish);
    }
  }
}
