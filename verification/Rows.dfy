/**
  The investigation row and the conditional updates the worker and the
  reconciler run against it (worker/db/platform/repositories.py and
  worker/db/platform/reconciliation.py).

  An update is a function from a row to an optional row: `None` says that the
  WHERE clause matched nothing.  `InvestigationRepository` is the table those
  functions act on in place.
*/
module Rows {
  import opened Prelude

  /** Identifiers are only ever compared. */
  type InvestigationId = int
  type WorkerId = int

  datatype Status = Queued | Processing | Completed | Failed

  datatype Outcome = Written | SkippedVersionConflict | SkippedDisabled | WriteFailed

  /** The text column holding an outcome; a release may not recognise its value. */
  datatype StoredOutcome = Recognised(outcome: Outcome) | Unrecognised

  datatype Analysis = Analysis(reasonCode: string, resolutionCode: string, text: string)

  /** The JSON payload: `analysis` is None when a required key is missing or ill-typed. */
  datatype Checkpoint = Checkpoint(analysis: Option<Analysis>, version: Option<int>)

  datatype WriteBackStep = Comment | Codes

  datatype Row = Row(
    exceptionId: string,
    status: Status,
    attemptCount: nat,
    workerId: Option<WorkerId>,
    lease: Option<Time>,
    heartbeatAt: Option<Time>,
    startedAt: Option<Time>,
    completedAt: Option<Time>,
    errorCode: Option<string>,
    analysis: Option<Checkpoint>,
    analysisPersistedAt: Option<Time>,
    commentOutcome: Option<StoredOutcome>,
    commentWrittenAt: Option<Time>,
    codesOutcome: Option<StoredOutcome>,
    codesWrittenAt: Option<Time>
  )

  /** The row as the orchestrator inserts it. */
  function NewRow(exceptionId: string): Row {
    Row(exceptionId, Queued, 0, None, None, None, None, None, None, None, None, None, None, None, None)
  }

  predicate Terminal(status: Status) { status == Completed || status == Failed }

  predicate Active(status: Status) { status == Queued || status == Processing }

  /** What every committed row satisfies. */
  predicate RowOk(row: Row) {
    && (row.status == Processing <==> row.workerId.Some?)
    && (row.status == Processing <==> row.lease.Some?)
    && (Terminal(row.status) <==> row.completedAt.Some?)
    && (row.status == Processing ==> row.attemptCount >= 1)
  }

  predicate Claimable(row: Row, now: Time) {
    || row.status == Queued
    || (row.status == Processing && row.lease.Some? && row.lease.value < now)
  }

  function ClaimRow(row: Row, worker: WorkerId, now: Time, leaseSeconds: Time): Option<Row> {
    if Claimable(row, now) then
      Some(row.(status := Processing,
                workerId := Some(worker),
                lease := Some(now + leaseSeconds),
                heartbeatAt := Some(now),
                startedAt := if row.startedAt.Some? then row.startedAt else Some(now),
                attemptCount := row.attemptCount + 1))
    else
      None
  }

  /** The fence of every update a run makes: the status and the owner, nothing else. */
  predicate Owned(row: Row, worker: WorkerId) {
    row.status == Processing && row.workerId == Some(worker)
  }

  function ExtendRow(row: Row, worker: WorkerId, now: Time, leaseSeconds: Time): Option<Row> {
    if Owned(row, worker) then
      Some(row.(lease := Some(now + leaseSeconds), heartbeatAt := Some(now)))
    else
      None
  }

  datatype FailureMutation = FailureMutation(
    workerId: WorkerId,
    expectedAttempt: nat,
    target: Status,
    completedAt: Option<Time>,
    errorCode: string)

  function FailRow(row: Row, m: FailureMutation): Option<Row> {
    if Owned(row, m.workerId) && row.attemptCount == m.expectedAttempt then
      Some(row.(status := m.target,
                completedAt := m.completedAt,
                workerId := None,
                lease := None,
                errorCode := Some(m.errorCode)))
    else
      None
  }

  function PersistRow(row: Row, worker: WorkerId, checkpoint: Checkpoint, now: Time): Option<Row> {
    if Owned(row, worker) then
      Some(row.(analysis := Some(checkpoint), analysisPersistedAt := Some(now)))
    else
      None
  }

  function RecordStepRow(row: Row, worker: WorkerId, step: WriteBackStep, outcome: Outcome, now: Time): Option<Row> {
    if !Owned(row, worker) then
      None
    else
      match step
      case Comment =>
        Some(row.(commentOutcome := Some(Recognised(outcome)),
                  commentWrittenAt := if outcome == Written then Some(now) else row.commentWrittenAt))
      case Codes =>
        Some(row.(codesOutcome := Some(Recognised(outcome)),
                  codesWrittenAt := if outcome == Written then Some(now) else row.codesWrittenAt))
  }

  function CompleteRow(row: Row, worker: WorkerId, now: Time): Option<Row> {
    if Owned(row, worker) then
      Some(row.(status := Completed, completedAt := Some(now), workerId := None, lease := None))
    else
      None
  }

  /** The reconciler's compare-and-set: status, owner and lease as they were observed. */
  datatype ReconciliationMutation = ReconciliationMutation(
    expectedStatus: Status,
    expectedWorkerId: Option<WorkerId>,
    expectedLease: Option<Time>,
    target: Status,
    completedAt: Time,
    errorCode: string)

  function ReconcileRow(row: Row, m: ReconciliationMutation): Option<Row> {
    if && row.status == m.expectedStatus
       && row.workerId == m.expectedWorkerId
       && row.lease == m.expectedLease
    then
      Some(row.(status := m.target,
                completedAt := Some(m.completedAt),
                workerId := None,
                lease := None,
                errorCode := Some(m.errorCode)))
    else
      None
  }

  /** One committed statement that touches one existing row. */
  datatype RowUpdate =
    | Claim(claimant: WorkerId, leaseSeconds: Time)
    | Extend(worker: WorkerId, extension: Time)
    | Persist(persister: WorkerId, checkpoint: Checkpoint)
    | RecordStep(recorder: WorkerId, step: WriteBackStep, outcome: Outcome)
    | Complete(completer: WorkerId)
    | Fail(failure: FailureMutation)
    | Reconcile(mutation: ReconciliationMutation)

  function UpdateRow(row: Row, u: RowUpdate, now: Time): Option<Row> {
    match u
    case Claim(w, leaseSeconds) => ClaimRow(row, w, now, leaseSeconds)
    case Extend(w, leaseSeconds) => ExtendRow(row, w, now, leaseSeconds)
    case Persist(w, checkpoint) => PersistRow(row, w, checkpoint, now)
    case RecordStep(w, step, outcome) => RecordStepRow(row, w, step, outcome, now)
    case Complete(w) => CompleteRow(row, w, now)
    case Fail(m) => FailRow(row, m)
    case Reconcile(m) => ReconcileRow(row, m)
  }

  /** The shape the application gives its updates. */
  predicate UpdateOk(u: RowUpdate) {
    match u
    case Claim(_, leaseSeconds) => leaseSeconds > 0.0
    case Extend(_, leaseSeconds) => leaseSeconds > 0.0
    case Fail(m) => (m.target == Queued && m.completedAt.None?) || (m.target == Failed && m.completedAt.Some?)
    case Reconcile(m) => m.target == Failed && Active(m.expectedStatus)
    case _ => true
  }

  /** Who the update speaks for; the reconciler speaks for nobody. */
  function Speaker(u: RowUpdate): Option<WorkerId> {
    match u
    case Claim(w, _) => Some(w)
    case Extend(w, _) => Some(w)
    case Persist(w, _) => Some(w)
    case RecordStep(w, _, _) => Some(w)
    case Complete(w) => Some(w)
    case Fail(m) => Some(m.workerId)
    case Reconcile(_) => None
  }

  /** Every committed update keeps the row invariant. */
  lemma UpdateKeepsRowOk(row: Row, u: RowUpdate, now: Time)
    requires RowOk(row) && UpdateOk(u) && UpdateRow(row, u, now).Some?
    ensures RowOk(UpdateRow(row, u, now).value)
    ensures UpdateRow(row, u, now).value.exceptionId == row.exceptionId
  {
  }

  /** What an update leaves alone: each column belongs to some of the updates only. */
  lemma UpdateKeepsTheRest(row: Row, u: RowUpdate, now: Time)
    requires UpdateRow(row, u, now).Some?
    ensures var after := UpdateRow(row, u, now).value;
            && after.attemptCount == row.attemptCount + (if u.Claim? then 1 else 0)
            && (row.startedAt.Some? || !u.Claim? ==> after.startedAt == row.startedAt)
            && (u.Extend? || u.Persist? || u.RecordStep? ==> after.status == row.status && after.workerId == row.workerId)
            && (u.Persist? || u.RecordStep? ==> after.lease == row.lease)
            && (!u.Persist? ==> after.analysis == row.analysis && after.analysisPersistedAt == row.analysisPersistedAt)
            && (!(u.RecordStep? && u.step == Codes) ==>
                  after.codesOutcome == row.codesOutcome && after.codesWrittenAt == row.codesWrittenAt)
            && (!(u.RecordStep? && u.step == Comment) ==>
                  after.commentOutcome == row.commentOutcome && after.commentWrittenAt == row.commentWrittenAt)
            && (!u.Fail? && !u.Reconcile? ==> after.errorCode == row.errorCode)
            && (!u.Claim? && !u.Extend? ==> after.heartbeatAt == row.heartbeatAt)
  {
  }

  /** No update matches a terminal row, so only a delete removes it from its state. */
  lemma TerminalAbsorbs(row: Row, u: RowUpdate, now: Time)
    requires RowOk(row) && UpdateOk(u) && Terminal(row.status)
    ensures UpdateRow(row, u, now).None?
  {
  }

  /** Apart from a claim, only the current owner's updates and the reconciler's match. */
  lemma DisplacedWorkerChangesNothing(row: Row, u: RowUpdate, now: Time, worker: WorkerId)
    requires Speaker(u) == Some(worker) && !u.Claim?
    requires !(row.status == Processing && row.workerId == Some(worker))
    ensures UpdateRow(row, u, now).None?
  {
  }

  /**
    The table.  `now` is the database clock, which the statements read and
    which others advance.
  */
  class InvestigationRepository {
    var table: map<InvestigationId, Row>
    var now: Time

    ghost predicate Valid()
      reads this
    {
      forall id :: id in table ==> RowOk(table[id])
    }

    constructor (now: Time)
      ensures table == map[] && this.now == now && Valid()
    {
      table := map[];
      this.now := now;
    }

    function Lookup(id: InvestigationId): (row: Option<Row>)
      reads this
      ensures row.Some? <==> id in table
      ensures row.Some? ==> row.value == table[id]
    {
      if id in table then Some(table[id]) else None
    }

    /** One UPDATE ... WHERE id = :id AND ...; `matched` is rowcount == 1. */
    method Update(id: InvestigationId, u: RowUpdate) returns (matched: bool)
      requires Valid() && UpdateOk(u)
      modifies this`table
      ensures Valid()
      ensures matched <==> id in old(table) && UpdateRow(old(table[id]), u, now).Some?
      ensures table == if matched then old(table)[id := UpdateRow(old(table[id]), u, now).value] else old(table)
      ensures matched ==> !Terminal(old(table[id]).status)
    {
      matched := false;
      if id in table {
        var updated := UpdateRow(table[id], u, now);
        if updated.Some? {
          UpdateKeepsRowOk(table[id], u, now);
          if Terminal(table[id].status) {
            TerminalAbsorbs(table[id], u, now);
          }
          table := table[id := updated.value];
          matched := true;
        }
      }
    }

    method Get(id: InvestigationId) returns (row: Option<Row>)
      ensures row == Lookup(id)
    {
      row := Lookup(id);
    }

    /** `claim`: a queued row, or one whose lease has run out, for one more attempt. */
    method ClaimInvestigation(id: InvestigationId, worker: WorkerId, leaseSeconds: Time) returns (claimed: Option<Row>)
      requires Valid() && leaseSeconds > 0.0
      modifies this`table
      ensures Valid()
      ensures claimed.Some? <==>
                && id in old(table)
                && var row := old(table[id]);
                   row.status == Queued || (row.status == Processing && row.lease.value < now)
      ensures claimed.None? ==> table == old(table)
      ensures claimed.Some? ==>
                && table == old(table)[id := claimed.value]
                && Owned(claimed.value, worker)
                && claimed.value == old(table[id]).(
                     status := Processing,
                     workerId := Some(worker),
                     lease := Some(now + leaseSeconds),
                     heartbeatAt := Some(now),
                     startedAt := Some(if old(table[id]).startedAt.Some? then old(table[id]).startedAt.value else now),
                     attemptCount := old(table[id]).attemptCount + 1)
    {
      var matched := Update(id, Claim(worker, leaseSeconds));
      claimed := None;
      if matched {
        claimed := Get(id);
      }
    }

    /** The row is this worker's to update. */
    predicate HeldBy(id: InvestigationId, worker: WorkerId)
      reads this
    {
      id in table && table[id].status == Processing && table[id].workerId == Some(worker)
    }

    method ExtendLease(id: InvestigationId, worker: WorkerId, leaseSeconds: Time) returns (matched: bool)
      requires Valid() && leaseSeconds > 0.0
      modifies this`table
      ensures Valid() && matched == old(HeldBy(id, worker)) && (!matched ==> table == old(table))
      ensures matched ==> table == old(table)[id := old(table[id]).(lease := Some(now + leaseSeconds), heartbeatAt := Some(now))]
    {
      matched := Update(id, Extend(worker, leaseSeconds));
    }

    method PersistAnalysis(id: InvestigationId, worker: WorkerId, checkpoint: Checkpoint) returns (matched: bool)
      requires Valid()
      modifies this`table
      ensures Valid() && matched == old(HeldBy(id, worker)) && (!matched ==> table == old(table))
      ensures matched ==>
                table == old(table)[id := old(table[id]).(analysis := Some(checkpoint), analysisPersistedAt := Some(now))]
    {
      matched := Update(id, Persist(worker, checkpoint));
    }

    /** `record_write_back_step`: the time of the step is set only for a written outcome. */
    method RecordWriteBackStep(id: InvestigationId, worker: WorkerId, step: WriteBackStep, outcome: Outcome) returns (matched: bool)
      requires Valid()
      modifies this`table
      ensures Valid() && matched == old(HeldBy(id, worker)) && (!matched ==> table == old(table))
      ensures matched && step.Codes? ==>
                table == old(table)[id := old(table[id]).(
                           codesOutcome := Some(Recognised(outcome)),
                           codesWrittenAt := if outcome.Written? then Some(now) else old(table[id]).codesWrittenAt)]
      ensures matched && step.Comment? ==>
                table == old(table)[id := old(table[id]).(
                           commentOutcome := Some(Recognised(outcome)),
                           commentWrittenAt := if outcome.Written? then Some(now) else old(table[id]).commentWrittenAt)]
    {
      matched := Update(id, RecordStep(worker, step, outcome));
    }

    method CompleteInvestigation(id: InvestigationId, worker: WorkerId) returns (matched: bool)
      requires Valid()
      modifies this`table
      ensures Valid() && matched == old(HeldBy(id, worker)) && (!matched ==> table == old(table))
      ensures matched ==>
                table == old(table)[id := old(table[id]).(
                           status := Completed,
                           completedAt := Some(now),
                           workerId := None,
                           lease := None)]
    {
      matched := Update(id, Complete(worker));
    }

    /** `apply_failure_transition`: the owner's, and only for the attempt it read. */
    method ApplyFailureTransition(id: InvestigationId, m: FailureMutation) returns (matched: bool)
      requires Valid() && UpdateOk(Fail(m))
      modifies this`table
      ensures Valid() && (!matched ==> table == old(table))
      ensures matched <==> old(HeldBy(id, m.workerId)) && old(table[id]).attemptCount == m.expectedAttempt
      ensures matched ==>
                table == old(table)[id := old(table[id]).(
                           status := m.target,
                           completedAt := m.completedAt,
                           workerId := None,
                           lease := None,
                           errorCode := Some(m.errorCode))]
    {
      matched := Update(id, RowUpdate.Fail(m));
    }

    /** `apply_mutation` of the reconciler: only while status, owner and lease are as it observed them. */
    method ApplyMutation(id: InvestigationId, m: ReconciliationMutation) returns (matched: bool)
      requires Valid() && UpdateOk(Reconcile(m))
      modifies this`table
      ensures Valid() && (!matched ==> table == old(table))
      ensures matched <==>
                && id in old(table)
                && old(table[id]).status == m.expectedStatus
                && old(table[id]).workerId == m.expectedWorkerId
                && old(table[id]).lease == m.expectedLease
      ensures matched ==>
                table == old(table)[id := old(table[id]).(
                           status := m.target,
                           completedAt := Some(m.completedAt),
                           workerId := None,
                           lease := None,
                           errorCode := Some(m.errorCode))]
    {
      matched := Update(id, Reconcile(m));
    }
  }
}
