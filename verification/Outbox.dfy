/**
  Publishing the transactional outbox
  (orchestrator/application/publish_outbox.py, orchestrator/db/repositories/outbox.py).

  A pass locks a batch of due events, hands each to the broker and commits what
  came of it.  Other publishers, admissions and retention work on the rows it
  has not locked.  What the broker has stored stays stored when the pass rolls
  back, so an event may be sent again, but is never marked without being sent.
*/
module Outbox {
  import opened Prelude

  type EventId = int

  /** One row; `failed` stands for a recorded `last_error`. */
  datatype OutboxRow = OutboxRow(eventId: EventId, publishedAt: Option<Time>, attempts: nat, nextAttemptAt: Time, failed: bool)

  type Rows = map<nat, OutboxRow>

  datatype PublishError = StoreUnavailable

  datatype PublishBatchResult = PublishBatchResult(selected: nat, published: nat, failed: nat)

  const BACKOFF_SECONDS: seq<Time> := [1.0, 5.0, 30.0, 60.0]

  /** `_retry_delay`: the last delay is kept from then on. */
  function RetryDelay(attempts: nat): (delay: Time)
    ensures delay == if attempts == 0 then 1.0 else if attempts == 1 then 5.0 else if attempts == 2 then 30.0 else 60.0
    ensures forall earlier: nat :: earlier <= attempts && earlier < |BACKOFF_SECONDS| ==> BACKOFF_SECONDS[earlier] <= delay
  {
    BACKOFF_SECONDS[if attempts < |BACKOFF_SECONDS| - 1 then attempts else |BACKOFF_SECONDS| - 1]
  }

  /** The select of `claim_pending`, less its order and limit. */
  predicate Due(rows: Rows, now: Time, locked: set<nat>, id: nat) {
    id in rows && rows[id].publishedAt.None? && rows[id].nextAttemptAt <= now && id !in locked
  }

  function MarkedPublished(row: OutboxRow, now: Time): OutboxRow {
    row.(publishedAt := Some(now), failed := false)
  }

  function MarkedFailed(row: OutboxRow, now: Time): OutboxRow {
    row.(attempts := row.attempts + 1, failed := true, nextAttemptAt := now + RetryDelay(row.attempts))
  }

  /**
    What may become of rows one does not hold: an event is deleted only once
    the broker has it, stays published, and new rows get identifiers from `next` on.
  */
  predicate OthersMay(before: Rows, next: nat, later: Rows, held: set<nat>, broker: set<EventId>) {
    && (forall id :: id in before && id in held ==> id in later && later[id] == before[id])
    && (forall id :: id in before && id in later ==> later[id].eventId == before[id].eventId)
    && (forall id :: id in before && id in later && before[id].publishedAt.Some? ==> later[id] == before[id])
    && (forall id :: id in before && id !in later ==> before[id].eventId in broker)
    && (forall id :: id in later && id !in before ==> id >= next)
  }

  /** What may happen in two steps may happen in one. */
  lemma OthersAgain(before: Rows, next: nat, rows: Rows, next': nat, later: Rows, held: set<nat>, held': set<nat>,
                    broker: set<EventId>, broker': set<EventId>)
    requires (forall id :: id in before ==> id < next) && next <= next' && broker <= broker' && held <= held'
    requires OthersMay(before, next, rows, held, broker) && OthersMay(rows, next', later, held', broker')
    ensures OthersMay(before, next, later, held, broker')
  {
  }

  /** What the broker answers to the publication of each row: true is an acknowledgement. */
  type BrokerAnswers = nat -> bool

  /**
    What becomes of one event the pass holds.  Acknowledged, it is published
    now, and the broker has it; otherwise it is put off by 1, 5, 30 or from
    then on 60 seconds, counted from the pass, with one more attempt behind it.
  */
  ghost predicate Attempted(before: OutboxRow, later: OutboxRow, acknowledged: bool, now: Time, broker: set<EventId>) {
    if acknowledged then
      before.eventId in broker && later == before.(publishedAt := Some(now), failed := false)
    else
      && later.eventId == before.eventId && later.publishedAt == before.publishedAt && later.failed
      && later.attempts == before.attempts + 1
      && later.nextAttemptAt == now + (match before.attempts case 0 => 1.0 case 1 => 5.0 case 2 => 30.0 case _ => 60.0)
  }

  /** How many of the events are acknowledged. */
  ghost function CountAcknowledged(events: seq<nat>, acknowledges: BrokerAnswers): (n: nat)
    ensures n <= |events|
  {
    if events == [] then 0
    else
      CountAcknowledged(events[..|events| - 1], acknowledges) + (if acknowledges(events[|events| - 1]) then 1 else 0)
  }

  function Elements(s: seq<nat>): (r: set<nat>)
    ensures forall x :: x in r <==> x in s
  {
    set x | x in s
  }

  /** A pass that took `before` has attempted the first `i` events it holds, each once. */
  ghost predicate PassSoFar(before: Rows, rows: Rows, events: seq<nat>, acknowledges: BrokerAnswers, i: nat, now: Time,
                            broker: set<EventId>) {
    && i <= |events|
    && (forall j, k :: 0 <= j < k < |events| ==> events[j] < events[k])
    && (forall j :: 0 <= j < |events| ==> events[j] in before && before[events[j]].publishedAt.None? && events[j] in rows)
    && (forall j :: 0 <= j < i ==> Attempted(before[events[j]], rows[events[j]], acknowledges(events[j]), now, broker))
    && (forall j :: i <= j < |events| ==> rows[events[j]] == before[events[j]])
  }

  lemma PassWaits(before: Rows, rows: Rows, next: nat, later: Rows, events: seq<nat>, acknowledges: BrokerAnswers, i: nat,
                  now: Time, broker: set<EventId>, broker': set<EventId>)
    requires PassSoFar(before, rows, events, acknowledges, i, now, broker) && broker <= broker'
    requires OthersMay(rows, next, later, Elements(events), broker')
    ensures PassSoFar(before, later, events, acknowledges, i, now, broker')
  {
    assert forall j :: 0 <= j < |events| ==> events[j] in Elements(events);
  }

  lemma PassAttempts(before: Rows, rows: Rows, later: Rows, events: seq<nat>, acknowledges: BrokerAnswers, i: nat,
                     now: Time, broker: set<EventId>, broker': set<EventId>)
    requires PassSoFar(before, rows, events, acknowledges, i, now, broker) && i < |events| && broker <= broker'
    requires events[i] in later && later == rows[events[i] := later[events[i]]]
    requires Attempted(rows[events[i]], later[events[i]], acknowledges(events[i]), now, broker')
    ensures PassSoFar(before, later, events, acknowledges, i + 1, now, broker')
    ensures CountAcknowledged(events[..i + 1], acknowledges) ==
            CountAcknowledged(events[..i], acknowledges) + (if acknowledges(events[i]) then 1 else 0)
  {
    assert events[..i + 1][..i] == events[..i];
  }

  /** The batch `claim_pending` locks: due events only, smallest identifiers first, and no due one passed over. */
  ghost predicate Claimed(rows: Rows, now: Time, locked: set<nat>, batchSize: nat, events: seq<nat>) {
    && |events| <= batchSize
    && (forall id :: id in events ==> id in rows && id !in locked && rows[id].publishedAt.None? && rows[id].nextAttemptAt <= now)
    && (forall j, k :: 0 <= j < k < |events| ==> events[j] < events[k])
    && (forall id :: id in rows && id !in locked && rows[id].publishedAt.None? && rows[id].nextAttemptAt <= now && id !in events ==>
          |events| == batchSize && forall j :: 0 <= j < |events| ==> events[j] < id)
  }

  lemma PassBegins(rows: Rows, next: nat, now: Time, locked: set<nat>, batchSize: nat, events: seq<nat>,
                   acknowledges: BrokerAnswers, broker: set<EventId>)
    requires Claimed(rows, now, locked, batchSize, events)
    ensures PassSoFar(rows, rows, events, acknowledges, 0, now, broker)
    ensures OthersMay(rows, next, rows, {}, broker)
    ensures forall id :: id in events ==> id in rows && rows[id].publishedAt.None?
  {
  }

  /** An event is still pending, or the broker has it. */
  ghost predicate NoneLost(before: Rows, rows: Rows, broker: set<EventId>) {
    forall id :: id in before ==>
      || before[id].eventId in broker
      || (id in rows && rows[id].publishedAt.None? && rows[id].eventId == before[id].eventId)
  }

  lemma OthersLoseNone(before: Rows, next: nat, rows: Rows, broker: set<EventId>)
    requires OthersMay(before, next, rows, {}, broker)
    requires forall id :: id in rows && rows[id].publishedAt.Some? ==> rows[id].eventId in broker
    ensures NoneLost(before, rows, broker)
  {
  }

  /** Unpublished rows as they were. */
  ghost predicate Held(before: Rows, held: Rows) {
    forall id :: id in held ==> id in before && held[id] == before[id] && held[id].publishedAt.None?
  }

  class OutboxPublisher {
    var rows: Rows
    var next: nat              // the next row identifier
    var broker: set<EventId>   // message identifiers the stream has stored
    const batchSize: nat
    const calm: bool           // nobody else acts while this process waits, and the database works

    /** No event is marked published that the broker has not stored. */
    predicate Valid()
      reads this
    {
      && (forall id :: id in rows ==> id < next)
      && (forall id :: id in rows && rows[id].publishedAt.Some? ==> rows[id].eventId in broker)
    }

    /** This pass may have changed what it holds; what it does not hold changed as others may. */
    ghost predicate Since(before: Rows, next0: nat, broker0: set<EventId>)
      reads this
    {
      && Valid() && (forall id :: id in before ==> id < next0)
      && OthersMay(before, next0, rows, {}, broker) && next0 <= next && broker0 <= broker
    }

    constructor (batchSize: nat, calm: bool)
      ensures Valid() && rows == map[] && broker == {} && this.batchSize == batchSize && this.calm == calm
    {
      this.batchSize, this.calm, rows, next, broker := batchSize, calm, map[], 0, {};
    }

    /** `add_investigation_requested`: an unpublished row, due at once. */
    method Add(eventId: EventId, now: Time) returns (id: nat)
      requires Valid()
      modifies this
      ensures Valid() && id !in old(rows)
      ensures rows == old(rows)[id := OutboxRow(eventId, None, 0, now, false)] && broker == old(broker)
      ensures forall locked :: id !in locked ==> Due(rows, now, locked, id)
    {
      id := next;
      rows, next := rows[id := OutboxRow(eventId, None, 0, now, false)], next + 1;
    }

    /** Commits of other publishers, admissions and retention while this pass waits. */
    method Await(held: set<nat>)
      requires Valid()
      modifies this
      ensures Valid() && old(next) <= next && old(broker) <= broker
      ensures OthersMay(old(rows), old(next), rows, held, broker)
      ensures calm ==> rows == old(rows) && broker == old(broker)
    {
      var sent: set<EventId> := *;
      var next': int := *;
      var later: Rows := *;
      if && !calm && next <= next'
         && OthersMay(rows, next, later, held, broker + sent)
         && (forall id :: id in later ==> id < next')
         && (forall id :: id in later && later[id].publishedAt.Some? ==> later[id].eventId in broker + sent)
      {
        rows, next, broker := later, next', broker + sent;
      }
    }

    method ClaimPending(now: Time, locked: set<nat>) returns (events: seq<nat>)
      ensures Claimed(rows, now, locked, batchSize, events)
    {
      var rest := set id | id in rows && Due(rows, now, locked, id);
      events := [];
      while rest != {} && |events| < batchSize
        invariant |events| <= batchSize
        invariant forall i :: 0 <= i < |events| ==> Due(rows, now, locked, events[i])
        invariant forall id :: Due(rows, now, locked, id) ==> id in events || id in rest
        invariant forall id :: id in rest ==> Due(rows, now, locked, id)
        invariant forall i, j :: 0 <= i < j < |events| ==> events[i] < events[j]
        invariant forall i, id :: 0 <= i < |events| && id in rest ==> events[i] < id
        decreases rest
      {
        SmallestExists(rest);
        var m :| Smallest(m, rest);
        rest := rest - {m};
        events := events + [m];
      }
    }

    /** One event this pass holds: `publish`, then `mark_published` or `mark_failed`. */
    method Attempt(id: nat, acknowledges: BrokerAnswers, now: Time) returns (published: bool)
      requires Valid() && id in rows && rows[id].publishedAt.None?
      modifies this`rows, this`broker
      ensures Valid() && old(broker) <= broker <= old(broker) + {old(rows)[id].eventId}
      ensures id in rows && rows == old(rows)[id := rows[id]]
      ensures published == acknowledges(id) && Attempted(old(rows)[id], rows[id], acknowledges(id), now, broker)
    {
      var storedAnyway: bool := *;
      if acknowledges(id) || storedAnyway {
        broker := broker + {rows[id].eventId};
      }
      if acknowledges(id) {
        rows := rows[id := MarkedPublished(rows[id], now)];
        published := true;
      } else {
        rows := rows[id := MarkedFailed(rows[id], now)];
        published := false;
      }
    }

    /** An exception leaves the unit of work: the rows it held are put back; the broker keeps what it was sent. */
    method Rollback(held: Rows, ghost before: Rows, ghost next0: nat, ghost broker0: set<EventId>)
      requires Since(before, next0, broker0)
      requires Held(before, held)
      modifies this`rows
      ensures Since(before, next0, broker0) && OthersMay(before, next0, rows, held.Keys, broker)
      ensures NoneLost(before, rows, broker)
    {
      rows := rows + held;
      OthersLoseNone(before, next0, rows, broker);
    }

    lemma NothingLost(before: Rows, next0: nat, broker0: set<EventId>)
      requires Since(before, next0, broker0)
      ensures NoneLost(before, rows, broker)
    {
      OthersLoseNone(before, next0, rows, broker);
    }

    /** The batch, locked, with its rows as they are then. */
    method HoldBatch(now: Time, locked: set<nat>, ghost acknowledges: BrokerAnswers) returns (events: seq<nat>, held: Rows)
      requires Valid()
      ensures Claimed(rows, now, locked, batchSize, events)
      ensures Since(rows, next, broker) && PassSoFar(rows, rows, events, acknowledges, 0, now, broker)
      ensures Held(rows, held) && held.Keys == Elements(events) && CountAcknowledged(events[..0], acknowledges) == 0
    {
      events := ClaimPending(now, locked);
      held := map id | id in rows && id in Elements(events) :: rows[id];
      PassBegins(rows, next, now, locked, batchSize, events, acknowledges, broker);
      assert held.Keys == Elements(events);
    }

    /** Apart from the held rows, the table and the broker are as they were. */
    ghost predicate OnlyHeldMoved(before: Rows, broker0: set<EventId>, events: seq<nat>)
      reads this
    {
      && rows.Keys == before.Keys
      && (forall id :: id in rows && id !in events ==> rows[id] == before[id])
      && (forall id :: id in rows ==> rows[id].eventId == before[id].eventId)
      && (forall e :: e in broker ==> e in broker0 || exists id :: id in events && id in before && before[id].eventId == e)
    }

    /**
      One pass.  `now` is the time of its transaction, and `acknowledges` what
      the broker answers.  When the pass returns, every event it claimed has
      been attempted exactly once - published if acknowledged, else put off -
      and the counts are those of the acknowledgements; after an exception
      every row it held is as before.  Either way no event is lost: it is still
      pending, or the broker has it.  Undisturbed, the pass returns.
    */
    method Execute(now: Time, locked: set<nat>, acknowledges: BrokerAnswers)
      returns (r: Result<PublishBatchResult, PublishError>, events: seq<nat>)
      requires Valid()
      modifies this
      ensures Claimed(old(rows), now, locked, batchSize, events)
      ensures Since(old(rows), old(next), old(broker))
      ensures NoneLost(old(rows), rows, broker)
      ensures r.Err? ==> OthersMay(old(rows), old(next), rows, Elements(events), broker)
      ensures r.Ok? ==> PassSoFar(old(rows), rows, events, acknowledges, |events|, now, broker)
      ensures r.Ok? ==>
                && r.value.selected == |events| == r.value.published + r.value.failed
                && r.value.published == CountAcknowledged(events, acknowledges)
      ensures calm ==> r.Ok? && OnlyHeldMoved(old(rows), old(broker), events)
    {
      hide *;
      var held: Rows;
      events, held := HoldBatch(now, locked, acknowledges);
      ghost var before, next0, broker0 := rows, next, broker;
      NothingMoved(events);
      var published, failed := 0, 0;
      for i := 0 to |events|
        invariant Since(before, next0, broker0)
        invariant PassSoFar(before, rows, events, acknowledges, i, now, broker)
        invariant published + failed == i
        invariant published == CountAcknowledged(events[..i], acknowledges)
        invariant calm ==> OnlyHeldMoved(before, broker0, events)
      {
        WaitForOthers(before, next0, broker0, events, acknowledges, i, now);
        var raises: bool := *;
        if !calm && raises {
          Rollback(held, before, next0, broker0);
          return Err(StoreUnavailable), events;
        }
        var acknowledged := AttemptNext(before, next0, broker0, events, acknowledges, i, now);
        if acknowledged {
          published := published + 1;
        } else {
          failed := failed + 1;
        }
      }
      assert events[..|events|] == events;
      var raises: bool := *;
      if !calm && raises {
        Rollback(held, before, next0, broker0);
        return Err(StoreUnavailable), events;
      }
      NothingLost(before, next0, broker0);
      return Ok(PublishBatchResult(|events|, published, failed)), events;
    }

    lemma NothingMoved(events: seq<nat>)
      ensures OnlyHeldMoved(rows, broker, events)
    {
    }

    method WaitForOthers(ghost before: Rows, ghost next0: nat, ghost broker0: set<EventId>, events: seq<nat>,
                         ghost acknowledges: BrokerAnswers, ghost i: nat, ghost now: Time)
      requires Since(before, next0, broker0) && PassSoFar(before, rows, events, acknowledges, i, now, broker)
      modifies this
      ensures Since(before, next0, broker0) && PassSoFar(before, rows, events, acknowledges, i, now, broker)
      ensures calm && old(OnlyHeldMoved(before, broker0, events)) ==> OnlyHeldMoved(before, broker0, events)
    {
      Await(Elements(events));
      OthersAgain(before, next0, old(rows), old(next), rows, {}, Elements(events), old(broker), broker);
      PassWaits(before, old(rows), old(next), rows, events, acknowledges, i, now, old(broker), broker);
    }

    method AttemptNext(ghost before: Rows, ghost next0: nat, ghost broker0: set<EventId>, events: seq<nat>,
                       acknowledges: BrokerAnswers, i: nat, now: Time)
      returns (published: bool)
      requires Since(before, next0, broker0) && PassSoFar(before, rows, events, acknowledges, i, now, broker) && i < |events|
      modifies this`rows, this`broker
      ensures Since(before, next0, broker0) && PassSoFar(before, rows, events, acknowledges, i + 1, now, broker)
      ensures CountAcknowledged(events[..i + 1], acknowledges) ==
              CountAcknowledged(events[..i], acknowledges) + (if published then 1 else 0)
      ensures old(OnlyHeldMoved(before, broker0, events)) ==> OnlyHeldMoved(before, broker0, events)
    {
      published := Attempt(events[i], acknowledges, now);
      PassAttempts(before, old(rows), rows, events, acknowledges, i, now, old(broker), broker);
    }
  }
}
