/**
  One reconciliation pass over investigations whose deliveries are exhausted
  (worker/application/reconcile.py over worker/db/platform/reconciliation.py).
*/
module Reconciliation {
  import opened Prelude
  import opened Rows

  /** `select ... for update` of one row, with the database clock of the read. */
  datatype Observed = Observed(status: Status, workerId: Option<WorkerId>, lease: Option<Time>, observedAt: Time)

  function ObserveRow(row: Row, now: Time): Observed {
    Observed(row.status, row.workerId, row.lease, now)
  }

  /** `decide_max_delivery`: what an observation leads to. */
  datatype Decision = Missing | AlreadyTerminal | Deferred | FailWith(mutation: ReconciliationMutation)

  function DecideMaxDelivery(state: Option<Observed>): Decision {
    if state.None? then Missing
    else if Terminal(state.value.status) then AlreadyTerminal
    else if && state.value.status == Processing
            && (state.value.lease.None? || state.value.lease.value >= state.value.observedAt) then Deferred
    else FailWith(ReconciliationMutation(
                    state.value.status, state.value.workerId, state.value.lease,
                    Failed, state.value.observedAt, "MAX_DELIVER_EXCEEDED"))
  }

  /**
    What the statement by itself can tell apart: a mutation decided from a
    queued row does not match once it is claimed, and matches again once that
    claim is released.  A pass never gets there, because it holds the row lock
    from its reading to its commit.
  */
  lemma QueuedMutationSurvivesARetry(row: Row, observedAt: Time, worker: WorkerId, claimedAt: Time, leaseSeconds: Time, code: string)
    requires RowOk(row) && row.status == Queued
    ensures var claimed := ClaimRow(row, worker, claimedAt, leaseSeconds);
            var m := DecideMaxDelivery(Some(ObserveRow(row, observedAt)));
            && claimed.Some? && m.FailWith?
            && ReconcileRow(claimed.value, m.mutation).None?
            && var released := FailRow(claimed.value, FailureMutation(worker, row.attemptCount + 1, Queued, None, code));
               released.Some? && ReconcileRow(released.value, m.mutation).Some?
  {
  }

  datatype MaxDeliveryOutcome = OutcomeFailed | OutcomeDeferred | OutcomeAlreadyTerminal | OutcomeMissing

  /** The outcomes after which the delivery may be cleaned up. */
  const CLEANUP: set<MaxDeliveryOutcome> := {OutcomeFailed, OutcomeAlreadyTerminal, OutcomeMissing}

  datatype MaxDeliveryResult = MaxDeliveryResult(id: InvestigationId, outcome: MaxDeliveryOutcome)

  /** Some result is about the investigation. */
  predicate Answered(results: seq<MaxDeliveryResult>, id: InvestigationId) {
    exists i :: 0 <= i < |results| && results[i].id == id
  }

  /** Terminal, or not there any more. */
  predicate Gone(table: map<InvestigationId, Row>, id: InvestigationId) {
    id in table ==> Terminal(table[id].status)
  }

  /** What a pass does to one investigation, from the row it locks. */
  function OutcomeFor(row: Option<Row>, now: Time): MaxDeliveryOutcome {
    match DecideMaxDelivery(if row.None? then None else Some(ObserveRow(row.value, now)))
    case Missing => OutcomeMissing
    case AlreadyTerminal => OutcomeAlreadyTerminal
    case Deferred => OutcomeDeferred
    case FailWith(_) => OutcomeFailed
  }

  /** The row as a pass at `now` fails it; its checkpoints stay. */
  function DeliveryExhausted(row: Row, now: Time): Row {
    row.(status := Failed, completedAt := Some(now), workerId := None, lease := None, errorCode := Some("MAX_DELIVER_EXCEEDED"))
  }

  /** What the row calls for, missing, terminal, live or exhausted. */
  predicate CallsFor(outcome: MaxDeliveryOutcome, row: Option<Row>, now: Time) {
    match outcome
    case OutcomeMissing => row.None?
    case OutcomeAlreadyTerminal => row.Some? && (row.value.status == Completed || row.value.status == Failed)
    case OutcomeDeferred => row.Some? && row.value.status == Processing && row.value.lease.Some? && row.value.lease.value >= now
    case OutcomeFailed =>
      && row.Some?
      && (row.value.status == Queued || (row.value.status == Processing && row.value.lease.Some? && row.value.lease.value < now))
  }

  /** A pass decides what the row calls for, which is one outcome: only a live lease is deferred. */
  lemma OnlyLiveLeasesAreDeferred(row: Option<Row>, now: Time, outcome: MaxDeliveryOutcome)
    requires row.Some? ==> RowOk(row.value)
    ensures OutcomeFor(row, now) == outcome <==> CallsFor(outcome, row, now)
  {
    if row.Some? {
      match row.value.status {
        case Queued =>
        case Processing =>
        case Completed =>
        case Failed =>
      }
    }
  }

  /** `sorted(set(ids))`. */
  function InsertId(id: InvestigationId, ordered: seq<InvestigationId>): (r: seq<InvestigationId>)
    requires Increasing(ordered)
    ensures Increasing(r)
    ensures forall x :: x in r <==> x == id || x in ordered
  {
    if ordered == [] then [id]
    else if id < ordered[0] then
      assert forall x :: x in [id] + ordered <==> x == id || x in ordered;
      [id] + ordered
    else if id == ordered[0] then ordered
    else
      var rest := InsertId(id, ordered[1..]);
      assert forall x :: x in ordered <==> x == ordered[0] || x in ordered[1..];
      assert forall x :: x in rest ==> ordered[0] < x;
      assert forall j :: 0 <= j < |rest| ==> rest[j] in rest;
      [ordered[0]] + rest
  }

  predicate Increasing(ids: seq<InvestigationId>) {
    forall i, j :: 0 <= i < j < |ids| ==> ids[i] < ids[j]
  }

  function OrderedIds(ids: seq<InvestigationId>): (r: seq<InvestigationId>)
    ensures Increasing(r)
    ensures forall x :: x in r <==> x in ids
  {
    if ids == [] then []
    else
      assert forall x :: x in ids <==> x == ids[0] || x in ids[1..];
      InsertId(ids[0], OrderedIds(ids[1..]))
  }

  class ReconcilePass {
    const repository: InvestigationRepository
    const retention: Time
    const calm: bool   // the database works

    constructor (repository: InvestigationRepository, retention: Time, calm: bool)
      ensures this.repository == repository && this.retention == retention && this.calm == calm
    {
      this.repository, this.retention, this.calm := repository, retention, calm;
    }

    /**
      `_apply_decisions` on rows the transaction has locked: each investigation
      gets the outcome its row calls for, exactly the failed ones change, and a
      cleanup outcome leaves the investigation terminal or gone.
    */
    method ApplyDecisions(ordered: seq<InvestigationId>) returns (results: seq<MaxDeliveryResult>)
      requires repository.Valid() && Increasing(ordered)
      modifies repository`table
      ensures repository.Valid()
      ensures |results| == |ordered|
      ensures forall i :: 0 <= i < |ordered| ==>
                results[i].id == ordered[i] && CallsFor(results[i].outcome, old(repository.Lookup(ordered[i])), repository.now)
      ensures forall i :: 0 <= i < |ordered| && results[i].outcome in CLEANUP ==> Gone(repository.table, ordered[i])
      ensures repository.table.Keys == old(repository.table).Keys
      ensures forall id :: id in repository.table ==>
                if id in ordered && CallsFor(OutcomeFailed, Some(old(repository.table)[id]), repository.now)
                then repository.table[id] == DeliveryExhausted(old(repository.table)[id], repository.now)
                else repository.table[id] == old(repository.table)[id]
    {
      ghost var before := repository.table;
      results := [];
      for n := 0 to |ordered|
        invariant repository.Valid() && repository.table.Keys == before.Keys && |results| == n
        invariant forall i :: 0 <= i < n ==>
                    results[i].id == ordered[i] && CallsFor(results[i].outcome, old(repository.Lookup(ordered[i])), repository.now)
        invariant forall id :: id in before ==>
                    if id in ordered[..n] && CallsFor(OutcomeFailed, Some(before[id]), repository.now)
                    then repository.table[id] == DeliveryExhausted(before[id], repository.now)
                    else repository.table[id] == before[id]
      {
        var id := ordered[n];
        assert id !in ordered[..n];
        assert ordered[..n + 1] == ordered[..n] + [id];
        var row := repository.Get(id);
        var decision := DecideMaxDelivery(if row.None? then None else Some(ObserveRow(row.value, repository.now)));
        var outcome := OutcomeFor(row, repository.now);
        OnlyLiveLeasesAreDeferred(row, repository.now, outcome);
        OnlyLiveLeasesAreDeferred(row, repository.now, OutcomeFailed);
        if decision.FailWith? {
          var matched := repository.ApplyMutation(id, decision.mutation);
          if !matched {
            outcome := OutcomeDeferred;
          }
        }
        results := results + [MaxDeliveryResult(id, outcome)];
      }
    }

    /**
      Retention: terminal investigations completed before the cutoff go, and
      nothing else does - no active row, no live lease, no later completion -
      or changes.
    */
    method DeleteExpired(cutoff: Time)
      requires repository.Valid()
      modifies repository`table
      ensures repository.Valid()
      ensures forall id :: id in repository.table ==> id in old(repository.table) && repository.table[id] == old(repository.table)[id]
      ensures forall id :: id in old(repository.table) && id !in repository.table ==>
                Terminal(old(repository.table)[id].status) && old(repository.table)[id].completedAt.value < cutoff
      ensures forall id :: id in repository.table && Terminal(repository.table[id].status) ==>
                repository.table[id].completedAt.value >= cutoff
    {
      repository.table := map id | id in repository.table && !Expired(repository.table[id], cutoff) :: repository.table[id];
    }

    /**
      `execute`, one transaction.  An error anywhere rolls all of it back.  A
      returned outcome is committed; a cleanup outcome means terminal or gone.
    */
    method Execute(ids: seq<InvestigationId>, applicationNow: Time) returns (r: Result<seq<MaxDeliveryResult>, string>)
      requires repository.Valid()
      modifies repository`table
      ensures repository.Valid()
      ensures r.Err? ==> repository.table == old(repository.table)
      ensures r.Ok? ==>
                && (forall id :: id in ids ==> Answered(r.value, id))
                && (forall i :: 0 <= i < |r.value| ==>
                      && CallsFor(r.value[i].outcome, old(repository.Lookup(r.value[i].id)), repository.now)
                      && (r.value[i].outcome in CLEANUP ==> Gone(repository.table, r.value[i].id)))
      ensures forall id :: id in old(repository.table) && !Terminal(old(repository.table)[id].status)
                           && old(repository.table)[id].lease.Some? && old(repository.table)[id].lease.value >= repository.now
                ==> id in repository.table && repository.table[id] == old(repository.table)[id]
      ensures forall id :: Gone(old(repository.table), id) ==> Gone(repository.table, id)
      ensures r.Ok? ==> forall id :: id in repository.table ==>
                && id in old(repository.table)
                && (if id in ids && CallsFor(OutcomeFailed, Some(old(repository.table)[id]), repository.now)
                    then repository.table[id] == DeliveryExhausted(old(repository.table)[id], repository.now)
                    else repository.table[id] == old(repository.table)[id])
      ensures r.Ok? ==> forall id :: id in old(repository.table) && id !in repository.table ==>
                var row, cutoff := old(repository.table)[id], applicationNow - retention;
                || (row.completedAt.Some? && row.completedAt.value < cutoff)
                || (id in ids && CallsFor(OutcomeFailed, Some(row), repository.now) && repository.now < cutoff)
      ensures r.Ok? ==> forall id :: id in repository.table && repository.table[id].completedAt.Some? ==>
                repository.table[id].completedAt.value >= applicationNow - retention
      ensures calm ==> r.Ok?
    {
      var before := repository.table;
      var ordered := OrderedIds(ids);
      var results := ApplyDecisions(ordered);
      DeleteExpired(applicationNow - retention);
      var fails: bool := *;
      if !calm && fails {
        repository.table := before;
        return Err("platform_database_unavailable");
      }
      r := Ok(results);
      forall id | id in ids
        ensures Answered(results, id)
      {
        assert id in ordered;
        var i :| 0 <= i < |ordered| && ordered[i] == id;
        assert results[i].id == id;
      }
    }
  }

  predicate Expired(row: Row, cutoff: Time) {
    Terminal(row.status) && row.completedAt.Some? && row.completedAt.value < cutoff
  }
}
