/**
  The whole platform: every admitted investigation as a Protocol world, and any
  number of admission transactions interleaved with them
  (orchestrator/db/repositories/investigations.py and the two admission
  actions).  Each statement of a transaction sees a fresh committed snapshot
  plus its own writes; its uncommitted insert reserves the active slot of its
  exception in the partial unique index, so another transaction inserting there
  waits, and is simply not enabled.
*/
module Admission {
  import opened Prelude
  import opened Rows
  import opened Reconciliation
  import opened Protocol
  import opened Delivery

  type TransactionId = int
  type RequestId = int
  type EventId = int

  /** Where a transaction is with the first exception of `todo`. */
  datatype Phase =
    | Ready                                            // about to read the history (filtered only)
    | Inserting(attempt: nat)
    | Searching(attempt: nat)                          // the insert hit the active index
    | Placed(placed: InvestigationId, created: bool)   // inserted, or found an active row

  datatype Transaction = Transaction(
    request: RequestId,
    filtered: bool,
    todo: seq<string>,
    phase: Phase,
    inserted: set<InvestigationId>,
    events: multiset<InvestigationId>,   // outbox rows written so far, by aggregate id
    written: map<InvestigationId, EventId>,  // and the event id each of them carries
    members: seq<InvestigationId>)

  datatype System = System(
    now: Time,
    worlds: map<InvestigationId, World>,
    exceptionOf: map<InvestigationId, string>,
    eventOf: map<InvestigationId, EventId>,  // the event id in the row of each insert
    outbox: multiset<InvestigationId>,       // every outbox row ever committed, by aggregate id
    written: map<InvestigationId, EventId>,  // and the event id each of them carries
    transactions: map<TransactionId, Transaction>,
    requests: map<RequestId, seq<InvestigationId>>)

  const EMPTY_SYSTEM := System(0.0, map[], map[], map[], multiset{}, map[], map[], map[])

  function RowOf(s: System, id: InvestigationId): Option<Row> {
    if id in s.worlds then s.worlds[id].shared.row else None
  }

  predicate HasStatus(s: System, id: InvestigationId, exceptionId: string, statuses: set<Status>) {
    RowOf(s, id).Some? && RowOf(s, id).value.exceptionId == exceptionId && RowOf(s, id).value.status in statuses
  }

  const ACTIVE: set<Status> := {Queued, Processing}

  predicate CompletedExists(s: System, exceptionId: string) {
    exists id :: id in s.worlds && HasStatus(s, id, exceptionId, {Completed})
  }

  /** The rows transaction `t` sees as active for the exception: committed ones and its own. */
  predicate SeesActive(s: System, t: TransactionId, exceptionId: string, id: InvestigationId)
    requires t in s.transactions
  {
    || HasStatus(s, id, exceptionId, ACTIVE)
    || (id in s.transactions[t].inserted && id in s.exceptionOf && s.exceptionOf[id] == exceptionId)
  }

  predicate NoneActive(s: System, t: TransactionId, exceptionId: string)
    requires t in s.transactions
  {
    forall id :: id in s.exceptionOf ==> !SeesActive(s, t, exceptionId, id)
  }

  /** Some other transaction holds an uncommitted insert for the exception. */
  predicate ReservedElsewhere(s: System, t: TransactionId, exceptionId: string) {
    exists u :: u in s.transactions && u != t &&
                exists id :: id in s.transactions[u].inserted && id in s.exceptionOf && s.exceptionOf[id] == exceptionId
  }

  // ------------------------------------------------------------------ steps

  datatype SystemAction =
    | Work(at: Time, moves: map<InvestigationId, Action>)  // one commit, possibly over several rows
    | Begin(t: TransactionId, request: RequestId, filtered: bool, exceptionIds: seq<string>)
    | ReadHistory(t: TransactionId)
    | Insert(t: TransactionId, newId: InvestigationId, newEvent: EventId)
    | FindActive(t: TransactionId, found: Option<InvestigationId>)
    | Accept(t: TransactionId)
    | Commit(t: TransactionId)
    | Abort(t: TransactionId)

  predicate Distinct<T(==)>(s: seq<T>) {
    forall i, j :: 0 <= i < j < |s| ==> s[i] != s[j]
  }

  predicate AtWork(s: System, t: TransactionId) {
    t in s.transactions && s.transactions[t].todo != []
  }

  predicate SystemEnabled(c: Config, s: System, a: SystemAction) {
    match a
    case Work(at, moves) =>
      && s.now <= at
      && moves.Keys <= s.worlds.Keys
      && (forall id :: id in moves ==> Enabled(c, at, s.worlds[id], moves[id]))
    case Begin(t, r, _, ids) => t !in s.transactions && r !in s.requests && Distinct(ids)
    case ReadHistory(t) => AtWork(s, t) && s.transactions[t].phase == Ready
    case Insert(t, newId, newEvent) =>
      && AtWork(s, t)
      && s.transactions[t].phase.Inserting?
      && newId !in s.exceptionOf
      && newEvent !in s.eventOf.Values
      && !ReservedElsewhere(s, t, s.transactions[t].todo[0])
    case FindActive(t, found) =>
      && AtWork(s, t)
      && s.transactions[t].phase.Searching?
      && (if found.Some? then SeesActive(s, t, s.transactions[t].todo[0], found.value)
          else NoneActive(s, t, s.transactions[t].todo[0]))
    case Accept(t) => AtWork(s, t) && s.transactions[t].phase.Placed?
    case Commit(t) => t in s.transactions && s.transactions[t].todo == [] && s.transactions[t].request !in s.requests
    case Abort(t) => t in s.transactions
  }

  /** `investigation.event_id`. */
  function EventFor(s: System, id: InvestigationId): EventId {
    if id in s.eventOf then s.eventOf[id] else 0
  }

  function FirstPhase(filtered: bool): Phase { if filtered then Ready else Inserting(0) }

  /** On to the next exception. */
  function Next(txn: Transaction): Transaction
    requires txn.todo != []
  {
    txn.(todo := txn.todo[1..], phase := FirstPhase(txn.filtered))
  }

  function WorldsAfter(at: Time, worlds: map<InvestigationId, World>, moves: map<InvestigationId, Action>): map<InvestigationId, World> {
    map id | id in worlds :: if id in moves then After(at, worlds[id], moves[id]) else worlds[id]
  }

  /** A committed insert is a queued row with its unpublished event, in one commit. */
  function CommittedWorlds(s: System, txn: Transaction): map<InvestigationId, World>
    requires txn.inserted <= s.exceptionOf.Keys
  {
    s.worlds + (map id | id in txn.inserted :: InitialWorld(s.exceptionOf[id], 0))
  }

  /** The transaction a step is a statement of. */
  function Actor(a: SystemAction): Option<TransactionId> {
    match a
    case Work(_, _) => None
    case Begin(t, _, _, _) => Some(t)
    case ReadHistory(t) => Some(t)
    case Insert(t, _, _) => Some(t)
    case FindActive(t, _) => Some(t)
    case Accept(t) => Some(t)
    case Commit(t) => Some(t)
    case Abort(t) => Some(t)
  }

  /** What a statement makes of its own transaction; None: the unit of work rolls back. */
  function TransactionAfter(c: Config, s: System, a: SystemAction): Option<Transaction>
    requires SystemEnabled(c, s, a) && Actor(a).Some? && !a.Commit?
  {
    match a
    case Begin(t, r, filtered, ids) =>
      Some(Transaction(r, filtered, ids, FirstPhase(filtered), {}, multiset{}, map[], []))
    case ReadHistory(t) =>
      var txn := s.transactions[t];
      Some(if CompletedExists(s, txn.todo[0]) then Next(txn) else txn.(phase := Inserting(0)))
    case Insert(t, newId, newEvent) =>
      var txn := s.transactions[t];
      Some(if NoneActive(s, t, txn.todo[0])
           then txn.(inserted := txn.inserted + {newId}, phase := Placed(newId, true))
           else txn.(phase := Searching(txn.phase.attempt)))
    case FindActive(t, found) =>
      var txn := s.transactions[t];
      if found.Some? then Some(txn.(phase := Placed(found.value, false)))
      else if txn.phase.attempt == 0 then Some(txn.(phase := Inserting(1)))
      else None  // RuntimeError
    case Accept(t) =>
      var txn := s.transactions[t];
      var id := txn.phase.placed;
      Some(if txn.filtered && CompletedExists(s, txn.todo[0])
           then Next(txn).(inserted := if txn.phase.created then txn.inserted - {id} else txn.inserted)
           else Next(txn).(members := txn.members + [id],
                           events := if txn.phase.created then txn.events + multiset{id} else txn.events,
                           written := if txn.phase.created then txn.written[id := EventFor(s, id)] else txn.written))
    case Abort(t) => None
  }

  function WithTransaction(transactions: map<TransactionId, Transaction>, t: TransactionId, txn: Option<Transaction>)
    : map<TransactionId, Transaction>
  {
    if txn.Some? then transactions[t := txn.value] else transactions - {t}
  }

  function SystemAfter(c: Config, s: System, a: SystemAction): System
    requires SystemEnabled(c, s, a)
    requires forall t :: t in s.transactions ==> s.transactions[t].inserted <= s.exceptionOf.Keys
  {
    match a
    case Work(at, moves) => s.(now := at, worlds := WorldsAfter(at, s.worlds, moves))
    case Commit(t) =>
      var txn := s.transactions[t];
      s.(worlds := CommittedWorlds(s, txn),
         outbox := s.outbox + txn.events,
         written := s.written + txn.written,
         requests := s.requests[txn.request := txn.members],
         transactions := s.transactions - {t})
    case Insert(t, newId, newEvent) =>
      var transactions := WithTransaction(s.transactions, t, TransactionAfter(c, s, a));
      if NoneActive(s, t, s.transactions[t].todo[0]) then
        s.(exceptionOf := s.exceptionOf[newId := s.transactions[t].todo[0]],
           eventOf := s.eventOf[newId := newEvent],
           transactions := transactions)
      else
        s.(transactions := transactions)
    case _ => s.(transactions := WithTransaction(s.transactions, Actor(a).value, TransactionAfter(c, s, a)))
  }

  // -------------------------------------------------------------- invariant

  /** An active committed row or an uncommitted insert: what the partial unique index counts. */
  ghost predicate HoldsSlot(s: System, id: InvestigationId) {
    || (RowOf(s, id).Some? && Active(RowOf(s, id).value.status))
    || (exists t :: t in s.transactions && id in s.transactions[t].inserted)
  }

  ghost predicate WorldsOk(c: Config, s: System) {
    forall id :: id in s.worlds ==>
      && WorldOk(c, s.now, s.worlds[id])
      && id in s.exceptionOf
      && (RowOf(s, id).Some? ==> RowOf(s, id).value.exceptionId == s.exceptionOf[id])
  }

  ghost predicate InsertsOk(s: System) {
    && (forall t :: t in s.transactions ==>
          s.transactions[t].inserted <= s.exceptionOf.Keys && s.transactions[t].inserted !! s.worlds.Keys)
    && (forall t, u :: t in s.transactions && u in s.transactions && t != u ==>
          s.transactions[t].inserted !! s.transactions[u].inserted)
  }

  ghost predicate SlotsUnique(s: System) {
    forall a, b :: HoldsSlot(s, a) && HoldsSlot(s, b) && a != b && a in s.exceptionOf && b in s.exceptionOf
      ==> s.exceptionOf[a] != s.exceptionOf[b]
  }

  /** An insert a filtered transaction has rechecked excludes a completed row for good. */
  ghost predicate RechecksHold(s: System) {
    forall t, id :: t in s.transactions && id in s.transactions[t].inserted && s.transactions[t].filtered
                    && s.transactions[t].phase != Placed(id, true) && id in s.exceptionOf
      ==> !CompletedExists(s, s.exceptionOf[id])
  }

  ghost predicate MembersOk(exceptionOf: map<InvestigationId, string>, txn: Transaction) {
    && Distinct(txn.todo)
    && Distinct(txn.members)
    && (forall m :: m in txn.members ==> m in exceptionOf && exceptionOf[m] !in txn.todo)
    && (txn.phase.Placed? ==> txn.phase.placed in exceptionOf && txn.todo != [] && exceptionOf[txn.phase.placed] == txn.todo[0])
  }

  /** What is inserted and not being decided on right now has its event; nothing else has. */
  ghost predicate EventsOk(txn: Transaction) {
    && (txn.phase.Placed? && txn.phase.created ==> txn.phase.placed in txn.inserted)
    && txn.events == multiset(if txn.phase.Placed? && txn.phase.created then txn.inserted - {txn.phase.placed} else txn.inserted)
    && (txn.phase.Placed? ==> txn.todo != [])
  }

  ghost predicate SystemOk(c: Config, s: System) {
    && WorldsOk(c, s)
    && InsertsOk(s)
    && SlotsUnique(s)
    && RechecksHold(s)
    && (forall t :: t in s.transactions ==> MembersOk(s.exceptionOf, s.transactions[t]))
    && (forall t :: t in s.transactions ==> EventsOk(s.transactions[t]))
    && (forall r :: r in s.requests ==> Distinct(s.requests[r]))
    && s.outbox == multiset(s.worlds.Keys)
  }

  // ---------------------------------------------------------- worlds at work

  /** A commit over any set of rows: rows keep their exception, and none becomes active. */
  lemma WorkKeepsRows(c: Config, s: System, at: Time, moves: map<InvestigationId, Action>, id: InvestigationId)
    requires ValidConfig(c) && WorldsOk(c, s) && SystemEnabled(c, s, Work(at, moves)) && id in s.worlds
    ensures WorldOk(c, at, WorldsAfter(at, s.worlds, moves)[id])
    ensures RowEvolves(s.worlds[id].shared.row, WorldsAfter(at, s.worlds, moves)[id].shared.row)
  {
    LaterWorldOk(c, s.now, at, s.worlds[id]);
    if id in moves {
      StepKeepsWorldOk(c, at, s.worlds[id], moves[id]);
      StepEvolvesRow(c, at, s.worlds[id], moves[id]);
    }
  }

  lemma WorkKeepsSlots(c: Config, s: System, at: Time, moves: map<InvestigationId, Action>)
    requires ValidConfig(c) && SystemOk(c, s) && SystemEnabled(c, s, Work(at, moves))
    ensures var s' := SystemAfter(c, s, Work(at, moves));
            && WorldsOk(c, s')
            && SlotsUnique(s')
            && (forall id :: RowEvolves(RowOf(s, id), RowOf(s', id)))
  {
    var s' := SystemAfter(c, s, Work(at, moves));
    forall id | id in s'.worlds
      ensures WorldOk(c, at, s'.worlds[id]) && RowEvolves(RowOf(s, id), RowOf(s', id))
    {
      WorkKeepsRows(c, s, at, moves, id);
    }
    assert forall id :: HoldsSlot(s', id) ==> HoldsSlot(s, id);
  }

  /** A row can only become completed out of an active one, and a rechecked insert holds that slot. */
  lemma WorkKeepsRechecks(c: Config, s: System, at: Time, moves: map<InvestigationId, Action>)
    requires ValidConfig(c) && SystemOk(c, s) && SystemEnabled(c, s, Work(at, moves))
    ensures RechecksHold(SystemAfter(c, s, Work(at, moves)))
  {
    var s' := SystemAfter(c, s, Work(at, moves));
    WorkKeepsSlots(c, s, at, moves);
    forall t, id, other | t in s.transactions && id in s.transactions[t].inserted && id in s.exceptionOf && other in s.worlds
      ensures HasStatus(s', other, s.exceptionOf[id], {Completed}) ==> HasStatus(s, other, s.exceptionOf[id], {Completed})
    {
      assert RowEvolves(RowOf(s, other), RowOf(s', other));
      assert HoldsSlot(s, id) && id !in s.worlds;
      assert HasStatus(s, other, s.exceptionOf[id], ACTIVE) ==> HoldsSlot(s, other);
    }
  }

  lemma WorkOk(c: Config, s: System, at: Time, moves: map<InvestigationId, Action>)
    requires ValidConfig(c) && SystemOk(c, s) && SystemEnabled(c, s, Work(at, moves))
    ensures SystemOk(c, SystemAfter(c, s, Work(at, moves)))
  {
    WorkKeepsSlots(c, s, at, moves);
    WorkKeepsRechecks(c, s, at, moves);
    assert SystemAfter(c, s, Work(at, moves)).worlds.Keys == s.worlds.Keys;
  }

  // ---------------------------------------------------------- transactions

  /** Replacing one transaction by one that holds no more inserts keeps the shared parts. */
  lemma SameSlots(s: System, s': System)
    requires SlotsUnique(s) && s'.worlds == s.worlds && s'.exceptionOf == s.exceptionOf
    requires forall t :: t in s'.transactions ==> t in s.transactions && s'.transactions[t].inserted <= s.transactions[t].inserted
    ensures SlotsUnique(s')
  {
  }

  lemma SameHistory(s: System, s': System, exceptionId: string)
    requires s'.worlds == s.worlds
    ensures CompletedExists(s', exceptionId) == CompletedExists(s, exceptionId)
  {
  }

  /** Nothing of transaction `txn` waits to be rechecked except what it is placing right now. */
  ghost predicate Rechecked(s: System, txn: Transaction) {
    forall id :: id in txn.inserted && txn.filtered && txn.phase != Placed(id, true) && id in s.exceptionOf
      ==> !CompletedExists(s, s.exceptionOf[id])
  }

  /** A step inside one transaction that inserts nothing need only be right about that transaction. */
  lemma TransactionOk(c: Config, s: System, t: TransactionId, txn: Transaction)
    requires SystemOk(c, s)
    requires txn.inserted <= (if t in s.transactions then s.transactions[t].inserted else {})
    requires MembersOk(s.exceptionOf, txn) && EventsOk(txn) && Rechecked(s, txn)
    ensures SystemOk(c, s.(transactions := s.transactions[t := txn]))
  {
    hide WorldOk;
    var s' := s.(transactions := s.transactions[t := txn]);
    assert forall id :: RowOf(s', id) == RowOf(s, id);
    assert SlotsUnique(s') by {
      assert forall id :: HoldsSlot(s', id) ==> HoldsSlot(s, id);
    }
    assert RechecksHold(s') by {
      forall e { SameHistory(s, s', e); }
    }
  }

  lemma WithoutTransactionOk(c: Config, s: System, t: TransactionId)
    requires SystemOk(c, s)
    ensures SystemOk(c, s.(transactions := s.transactions - {t}))
  {
    var s' := s.(transactions := s.transactions - {t});
    SameSlots(s, s');
    assert forall id :: RowOf(s', id) == RowOf(s, id);
    assert RechecksHold(s') by {
      forall e { SameHistory(s, s', e); }
    }
  }

  lemma BeginOk(c: Config, s: System, t: TransactionId, r: RequestId, filtered: bool, ids: seq<string>)
    requires SystemOk(c, s) && SystemEnabled(c, s, Begin(t, r, filtered, ids))
    ensures SystemOk(c, SystemAfter(c, s, Begin(t, r, filtered, ids)))
  {
    TransactionOk(c, s, t, Transaction(r, filtered, ids, FirstPhase(filtered), {}, multiset{}, map[], []));
  }

  lemma ReadHistoryOk(c: Config, s: System, t: TransactionId)
    requires SystemOk(c, s) && SystemEnabled(c, s, ReadHistory(t))
    ensures SystemOk(c, SystemAfter(c, s, ReadHistory(t)))
  {
    var txn := s.transactions[t];
    assert Rechecked(s, txn);
    TransactionOk(c, s, t, if CompletedExists(s, txn.todo[0]) then Next(txn) else txn.(phase := Inserting(0)));
  }

  lemma FindActiveOk(c: Config, s: System, t: TransactionId, found: Option<InvestigationId>)
    requires SystemOk(c, s) && SystemEnabled(c, s, FindActive(t, found))
    ensures SystemOk(c, SystemAfter(c, s, FindActive(t, found)))
  {
    var txn := s.transactions[t];
    assert Rechecked(s, txn) && MembersOk(s.exceptionOf, txn) && EventsOk(txn);
    if found.Some? {
      assert found.value in s.exceptionOf && s.exceptionOf[found.value] == txn.todo[0];
    }
    hide SystemOk, Enabled, CompletedExists, NoneActive;
    if found.Some? {
      TransactionOk(c, s, t, txn.(phase := Placed(found.value, false)));
    } else if txn.phase.attempt == 0 {
      TransactionOk(c, s, t, txn.(phase := Inserting(1)));
    } else {
      WithoutTransactionOk(c, s, t);
    }
  }

  lemma AcceptOk(c: Config, s: System, t: TransactionId)
    requires SystemOk(c, s) && SystemEnabled(c, s, Accept(t))
    ensures SystemOk(c, SystemAfter(c, s, Accept(t)))
  {
    var txn := s.transactions[t];
    var id := txn.phase.placed;
    assert Rechecked(s, txn) && MembersOk(s.exceptionOf, txn) && EventsOk(txn);
    hide SystemOk, CompletedExists, Enabled;
    if txn.filtered && CompletedExists(s, txn.todo[0]) {
      TransactionOk(c, s, t, Next(txn).(inserted := if txn.phase.created then txn.inserted - {id} else txn.inserted));
    } else {
      var txn' := Next(txn).(members := txn.members + [id],
                             events := if txn.phase.created then txn.events + multiset{id} else txn.events,
                             written := if txn.phase.created then txn.written[id := EventFor(s, id)] else txn.written);
      AcceptedMember(s.exceptionOf, txn, txn');
      assert Rechecked(s, txn');
      TransactionOk(c, s, t, txn');
    }
  }

  /** Accepting what was placed gives it the next position and, if it was created, its event. */
  lemma AcceptedMember(exceptionOf: map<InvestigationId, string>, txn: Transaction, txn': Transaction)
    requires MembersOk(exceptionOf, txn) && EventsOk(txn) && txn.phase.Placed?
    requires txn' == Next(txn).(members := txn.members + [txn.phase.placed],
                                events := if txn.phase.created then txn.events + multiset{txn.phase.placed} else txn.events,
                                written := txn'.written)
    ensures MembersOk(exceptionOf, txn') && EventsOk(txn')
  {
  }

  /** A fresh insert takes a slot nobody holds: no committed active row, no other insert. */
  lemma InsertTakesFreeSlot(c: Config, s: System, t: TransactionId, newId: InvestigationId, newEvent: EventId)
    requires SystemOk(c, s) && SystemEnabled(c, s, Insert(t, newId, newEvent))
    requires NoneActive(s, t, s.transactions[t].todo[0])
    ensures SlotsUnique(SystemAfter(c, s, Insert(t, newId, newEvent)))
  {
    hide WorldOk, RechecksHold, MembersOk, EventsOk;
    var s' := SystemAfter(c, s, Insert(t, newId, newEvent));
    var e := s.transactions[t].todo[0];
    forall id | HoldsSlot(s', id) && id != newId
      ensures HoldsSlot(s, id)
      ensures id in s.exceptionOf ==> s.exceptionOf[id] != e
    {
      assert RowOf(s', id) == RowOf(s, id);
      assert id in s.exceptionOf ==> !SeesActive(s, t, e, id);
    }
  }

  lemma InsertFreshOk(c: Config, s: System, t: TransactionId, newId: InvestigationId, newEvent: EventId)
    requires SystemOk(c, s) && SystemEnabled(c, s, Insert(t, newId, newEvent))
    requires NoneActive(s, t, s.transactions[t].todo[0])
    ensures SystemOk(c, SystemAfter(c, s, Insert(t, newId, newEvent)))
  {
    InsertTakesFreeSlot(c, s, t, newId, newEvent);
    InsertKeepsInserts(c, s, t, newId, newEvent);
    InsertKeepsMembers(c, s, t, newId, newEvent);
    InsertKeepsRechecks(c, s, t, newId, newEvent);
  }

  lemma InsertKeepsInserts(c: Config, s: System, t: TransactionId, newId: InvestigationId, newEvent: EventId)
    requires SystemOk(c, s) && SystemEnabled(c, s, Insert(t, newId, newEvent))
    requires NoneActive(s, t, s.transactions[t].todo[0])
    ensures InsertsOk(SystemAfter(c, s, Insert(t, newId, newEvent)))
  {
    hide WorldOk, SlotsUnique, RechecksHold, MembersOk, EventsOk;
  }

  lemma InsertKeepsMembers(c: Config, s: System, t: TransactionId, newId: InvestigationId, newEvent: EventId)
    requires SystemOk(c, s) && SystemEnabled(c, s, Insert(t, newId, newEvent))
    requires NoneActive(s, t, s.transactions[t].todo[0])
    ensures var s' := SystemAfter(c, s, Insert(t, newId, newEvent));
            forall u :: u in s'.transactions ==> MembersOk(s'.exceptionOf, s'.transactions[u]) && EventsOk(s'.transactions[u])
  {
    var s' := SystemAfter(c, s, Insert(t, newId, newEvent));
    assert newId !in s.transactions[t].inserted;
    forall u | u in s'.transactions
      ensures MembersOk(s'.exceptionOf, s'.transactions[u]) && EventsOk(s'.transactions[u])
    {
      assert MembersOk(s.exceptionOf, s.transactions[u]) && EventsOk(s.transactions[u]);
      if u == t {
        PlacedInsert(s.exceptionOf, s.transactions[t], newId);
      }
    }
  }

  /** A new insert waits for its event until it is accepted. */
  lemma PlacedInsert(exceptionOf: map<InvestigationId, string>, txn: Transaction, newId: InvestigationId)
    requires MembersOk(exceptionOf, txn) && EventsOk(txn) && txn.phase.Inserting? && txn.todo != []
    requires newId !in exceptionOf && newId !in txn.inserted
    ensures var txn' := txn.(inserted := txn.inserted + {newId}, phase := Placed(newId, true));
            MembersOk(exceptionOf[newId := txn.todo[0]], txn') && EventsOk(txn')
  {
  }

  lemma InsertKeepsRechecks(c: Config, s: System, t: TransactionId, newId: InvestigationId, newEvent: EventId)
    requires SystemOk(c, s) && SystemEnabled(c, s, Insert(t, newId, newEvent))
    requires NoneActive(s, t, s.transactions[t].todo[0])
    ensures RechecksHold(SystemAfter(c, s, Insert(t, newId, newEvent))) && WorldsOk(c, SystemAfter(c, s, Insert(t, newId, newEvent)))
  {
    var s' := SystemAfter(c, s, Insert(t, newId, newEvent));
    forall e { SameHistory(s, s', e); }
    assert forall id :: RowOf(s', id) == RowOf(s, id);
  }

  lemma InsertOk(c: Config, s: System, t: TransactionId, newId: InvestigationId, newEvent: EventId)
    requires SystemOk(c, s) && SystemEnabled(c, s, Insert(t, newId, newEvent))
    ensures SystemOk(c, SystemAfter(c, s, Insert(t, newId, newEvent)))
  {
    if NoneActive(s, t, s.transactions[t].todo[0]) {
      InsertFreshOk(c, s, t, newId, newEvent);
    } else {
      var txn := s.transactions[t];
      assert Rechecked(s, txn);
      TransactionOk(c, s, t, txn.(phase := Searching(txn.phase.attempt)));
    }
  }

  /** Committing turns held inserts into active rows: the slots stay the same. */
  lemma CommitSlots(c: Config, s: System, t: TransactionId)
    requires SystemOk(c, s) && SystemEnabled(c, s, Commit(t))
    ensures SlotsUnique(SystemAfter(c, s, Commit(t)))
    ensures forall id :: RowOf(SystemAfter(c, s, Commit(t)), id) ==
                         if id in s.transactions[t].inserted then Some(NewRow(s.exceptionOf[id])) else RowOf(s, id)
  {
    var s' := SystemAfter(c, s, Commit(t));
    assert forall id :: HoldsSlot(s', id) ==> HoldsSlot(s, id);
  }

  lemma CommitKeepsWorlds(c: Config, s: System, t: TransactionId)
    requires ValidConfig(c) && SystemOk(c, s) && SystemEnabled(c, s, Commit(t))
    ensures WorldsOk(c, SystemAfter(c, s, Commit(t)))
  {
    var s' := SystemAfter(c, s, Commit(t));
    forall id | id in s'.worlds
      ensures WorldOk(c, s.now, s'.worlds[id]) && id in s.exceptionOf
      ensures RowOf(s', id).Some? ==> RowOf(s', id).value.exceptionId == s.exceptionOf[id]
    {
      if id in s.transactions[t].inserted {
        AdmissionOk(c, s.now, s.exceptionOf[id], 0);
      } else {
        assert s'.worlds[id] == s.worlds[id];
      }
    }
  }

  lemma MultisetOfUnion(a: set<InvestigationId>, b: set<InvestigationId>)
    requires a !! b
    ensures multiset(a) + multiset(b) == multiset(a + b)
  {
  }

  lemma CommitKeepsOutbox(c: Config, s: System, t: TransactionId)
    requires SystemOk(c, s) && SystemEnabled(c, s, Commit(t))
    ensures SystemAfter(c, s, Commit(t)).outbox == multiset(SystemAfter(c, s, Commit(t)).worlds.Keys)
  {
    var txn := s.transactions[t];
    assert EventsOk(txn);
    assert CommittedWorlds(s, txn).Keys == s.worlds.Keys + txn.inserted;
    MultisetOfUnion(s.worlds.Keys, txn.inserted);
  }

  lemma CommitKeepsInserts(c: Config, s: System, t: TransactionId)
    requires SystemOk(c, s) && SystemEnabled(c, s, Commit(t))
    ensures InsertsOk(SystemAfter(c, s, Commit(t)))
  {
    assert CommittedWorlds(s, s.transactions[t]).Keys == s.worlds.Keys + s.transactions[t].inserted;
  }

  lemma CommitKeepsRechecks(c: Config, s: System, t: TransactionId)
    requires SystemOk(c, s) && SystemEnabled(c, s, Commit(t))
    ensures RechecksHold(SystemAfter(c, s, Commit(t)))
  {
    hide Enabled, WorldOk, EventsOk, MembersOk;
    var s' := SystemAfter(c, s, Commit(t));
    CommitSlots(c, s, t);
    forall e
      ensures CompletedExists(s', e) ==> CompletedExists(s, e)
    {
      assert forall id :: id in s'.worlds && HasStatus(s', id, e, {Completed}) ==> id in s.worlds && HasStatus(s, id, e, {Completed});
    }
  }

  lemma CommitOk(c: Config, s: System, t: TransactionId)
    requires ValidConfig(c) && SystemOk(c, s) && SystemEnabled(c, s, Commit(t))
    ensures SystemOk(c, SystemAfter(c, s, Commit(t)))
  {
    CommitSlots(c, s, t);
    CommitKeepsWorlds(c, s, t);
    CommitKeepsOutbox(c, s, t);
    CommitKeepsInserts(c, s, t);
    CommitKeepsRechecks(c, s, t);
    CommitKeepsTheRest(c, s, t);
  }

  lemma CommitKeepsTheRest(c: Config, s: System, t: TransactionId)
    requires SystemOk(c, s) && SystemEnabled(c, s, Commit(t))
    ensures var s' := SystemAfter(c, s, Commit(t));
            && (forall u :: u in s'.transactions ==> MembersOk(s'.exceptionOf, s'.transactions[u]) && EventsOk(s'.transactions[u]))
            && (forall r :: r in s'.requests ==> Distinct(s'.requests[r]))
  {
    assert MembersOk(s.exceptionOf, s.transactions[t]);
  }

  lemma SystemStepOk(c: Config, s: System, a: SystemAction)
    requires ValidConfig(c) && SystemOk(c, s) && SystemEnabled(c, s, a)
    ensures SystemOk(c, SystemAfter(c, s, a))
  {
    match a {
      case Work(at, moves) => WorkOk(c, s, at, moves);
      case Begin(t, r, filtered, ids) => BeginOk(c, s, t, r, filtered, ids);
      case ReadHistory(t) => ReadHistoryOk(c, s, t);
      case Insert(t, newId, newEvent) => InsertOk(c, s, t, newId, newEvent);
      case FindActive(t, found) => FindActiveOk(c, s, t, found);
      case Accept(t) => AcceptOk(c, s, t);
      case Commit(t) => CommitOk(c, s, t);
      case Abort(t) => WithoutTransactionOk(c, s, t);
    }
  }

  // ------------------------------------------------------------------- runs

  /** A run of the platform: `states` from the empty one, each reached by the action before it. */
  ghost predicate PlatformRun(c: Config, states: seq<System>, actions: seq<SystemAction>) {
    && |states| == |actions| + 1
    && states[0] == EMPTY_SYSTEM
    && (forall i :: 0 <= i < |actions| ==> PlatformStep(c, states[i], actions[i], states[i + 1]))
  }

  ghost predicate PlatformStep(c: Config, s: System, a: SystemAction, s': System) {
    && SystemEnabled(c, s, a)
    && (forall t :: t in s.transactions ==> s.transactions[t].inserted <= s.exceptionOf.Keys)
    && s' == SystemAfter(c, s, a)
  }

  lemma RunParts(c: Config, states: seq<System>, actions: seq<SystemAction>, i: nat)
    requires PlatformRun(c, states, actions) && i < |states|
    ensures |states| == |actions| + 1 && states[0] == EMPTY_SYSTEM
    ensures i > 0 ==> PlatformStep(c, states[i - 1], actions[i - 1], states[i])
  {
  }

  lemma PlatformStepOk(c: Config, s: System, a: SystemAction, s': System)
    requires ValidConfig(c) && SystemOk(c, s) && PlatformStep(c, s, a, s')
    ensures SystemOk(c, s')
  {
    hide SystemOk;
    SystemStepOk(c, s, a);
  }

  lemma EmptyOk(c: Config)
    ensures SystemOk(c, EMPTY_SYSTEM)
  {
  }

  lemma {:induction false} PlatformAlwaysOk(c: Config, states: seq<System>, actions: seq<SystemAction>, i: nat)
    requires ValidConfig(c) && PlatformRun(c, states, actions) && i < |states|
    ensures SystemOk(c, states[i])
  {
    hide *;
    RunParts(c, states, actions, i);
    EmptyOk(c);
    if i > 0 {
      PlatformAlwaysOk(c, states, actions, i - 1);
      PlatformStepOk(c, states[i - 1], actions[i - 1], states[i]);
    }
  }

  // ------------------------------------------------------------ filed members

  /** A transaction's members are committed or its own inserts. */
  ghost predicate MembersHere(s: System, txn: Transaction) {
    && (forall m :: m in txn.members ==> m in s.worlds || m in txn.inserted)
    && (txn.phase.Placed? ==> txn.phase.placed in s.worlds || txn.phase.placed in txn.inserted)
  }

  /** So the members of a filed request are committed. */
  ghost predicate FiledOk(s: System) {
    && (forall t :: t in s.transactions ==> MembersHere(s, s.transactions[t]))
    && (forall r :: r in s.requests ==> forall m :: m in s.requests[r] ==> m in s.worlds)
  }

  lemma AcceptKeepsFiled(c: Config, s: System, t: TransactionId)
    requires SystemOk(c, s) && FiledOk(s) && SystemEnabled(c, s, Accept(t))
    ensures MembersHere(s, SystemAfter(c, s, Accept(t)).transactions[t])
  {
    assert MembersOk(s.exceptionOf, s.transactions[t]) && MembersHere(s, s.transactions[t]);
  }

  lemma CommitKeepsFiled(c: Config, s: System, t: TransactionId)
    requires SystemOk(c, s) && FiledOk(s) && SystemEnabled(c, s, Commit(t))
    ensures FiledOk(SystemAfter(c, s, Commit(t)))
  {
    var s' := SystemAfter(c, s, Commit(t));
    assert MembersHere(s, s.transactions[t]);
    forall u | u in s'.transactions
      ensures MembersHere(s', s'.transactions[u])
    {
      assert MembersHere(s, s.transactions[u]);
    }
  }

  /** Requests stay as they were filed, and admitted investigations stay admitted. */
  ghost predicate Grown(s: System, s': System) {
    && (forall r :: r in s.requests ==> r in s'.requests && s'.requests[r] == s.requests[r])
    && s.worlds.Keys <= s'.worlds.Keys
  }

  lemma StepGrows(c: Config, s: System, a: SystemAction, s': System)
    requires PlatformStep(c, s, a, s')
    ensures Grown(s, s')
    ensures a.Commit? || s'.requests == s.requests
  {
    hide TransactionAfter, Enabled, NoneActive, ReservedElsewhere, CompletedExists;
    match a {
      case Work(_, _) =>
      case _ =>
    }
  }

  lemma StatementKeepsOthers(c: Config, s: System, a: SystemAction, s': System, u: TransactionId)
    requires PlatformStep(c, s, a, s') && Actor(a) != Some(u) && u in s'.transactions
    ensures u in s.transactions && s'.transactions[u] == s.transactions[u]
  {
    hide TransactionAfter, Enabled, NoneActive, ReservedElsewhere, CompletedExists, CommittedWorlds, WorldsAfter;
    match a {
      case Work(_, _) =>
      case _ =>
    }
  }

  lemma InsertKeepsFiled(c: Config, s: System, t: TransactionId, newId: InvestigationId, newEvent: EventId)
    requires SystemOk(c, s) && FiledOk(s) && SystemEnabled(c, s, Insert(t, newId, newEvent))
    ensures var s' := SystemAfter(c, s, Insert(t, newId, newEvent));
            t in s'.transactions && MembersHere(s', s'.transactions[t])
  {
    assert MembersHere(s, s.transactions[t]);
  }

  lemma FindActiveKeepsFiled(c: Config, s: System, t: TransactionId, found: Option<InvestigationId>)
    requires SystemOk(c, s) && FiledOk(s) && SystemEnabled(c, s, FindActive(t, found))
    ensures var s' := SystemAfter(c, s, FindActive(t, found));
            t in s'.transactions ==> MembersHere(s', s'.transactions[t])
  {
    assert MembersHere(s, s.transactions[t]);
  }

  lemma BeginningFiled(c: Config, s: System, a: SystemAction, t: TransactionId)
    requires SystemOk(c, s) && FiledOk(s) && SystemEnabled(c, s, a) && Actor(a) == Some(t) && (a.Begin? || a.ReadHistory?)
    ensures MembersHere(s, SystemAfter(c, s, a).transactions[t])
  {
    assert a.ReadHistory? ==> MembersHere(s, s.transactions[t]);
  }

  /** What becomes of one open transaction in a step that is no commit. */
  lemma OpenStaysFiled(c: Config, s: System, a: SystemAction, s': System, u: TransactionId)
    requires SystemOk(c, s) && FiledOk(s) && PlatformStep(c, s, a, s') && !a.Commit? && u in s'.transactions
    ensures MembersHere(s', s'.transactions[u])
  {
    StepGrows(c, s, a, s');
    if Actor(a) != Some(u) {
      StatementKeepsOthers(c, s, a, s', u);
      assert MembersHere(s, s.transactions[u]);
    } else {
      hide SystemOk, FiledOk, Enabled, NoneActive, ReservedElsewhere, CompletedExists;
      match a {
        case Insert(t, newId, newEvent) => InsertKeepsFiled(c, s, t, newId, newEvent);
        case FindActive(t, found) => FindActiveKeepsFiled(c, s, t, found);
        case Accept(t) => AcceptKeepsFiled(c, s, t);
        case Begin(t, _, _, _) => BeginningFiled(c, s, a, t);
        case ReadHistory(t) => BeginningFiled(c, s, a, t);
        case Abort(t) =>
      }
    }
  }

  lemma StepKeepsFiled(c: Config, s: System, a: SystemAction, s': System)
    requires SystemOk(c, s) && FiledOk(s) && PlatformStep(c, s, a, s')
    ensures FiledOk(s')
  {
    if a.Commit? {
      CommitKeepsFiled(c, s, a.t);
    } else {
      StepGrows(c, s, a, s');
      forall u | u in s'.transactions
        ensures MembersHere(s', s'.transactions[u])
      {
        OpenStaysFiled(c, s, a, s', u);
      }
      hide SystemOk, PlatformStep, MembersHere;
    }
  }

  lemma EmptyFiled()
    ensures FiledOk(EMPTY_SYSTEM) && EventIdsOk(EMPTY_SYSTEM)
  {
  }

  lemma {:induction false} FiledAlwaysOk(c: Config, states: seq<System>, actions: seq<SystemAction>, i: nat)
    requires ValidConfig(c) && PlatformRun(c, states, actions) && i < |states|
    ensures FiledOk(states[i])
  {
    hide *;
    RunParts(c, states, actions, i);
    EmptyFiled();
    if i > 0 {
      FiledAlwaysOk(c, states, actions, i - 1);
      PlatformAlwaysOk(c, states, actions, i - 1);
      StepKeepsFiled(c, states[i - 1], actions[i - 1], states[i]);
    }
  }

  /** A filed request stays as it was filed, with every member an admitted investigation. */
  lemma {:induction false} RequestStays(c: Config, states: seq<System>, actions: seq<SystemAction>, i: nat, j: nat, r: RequestId)
    requires ValidConfig(c) && PlatformRun(c, states, actions) && i <= j < |states|
    requires r in states[i].requests
    ensures r in states[j].requests && states[j].requests[r] == states[i].requests[r]
    ensures forall m :: m in states[i].requests[r] ==> m in states[j].worlds
    decreases j - i
  {
    RunParts(c, states, actions, j);
    FiledAlwaysOk(c, states, actions, j);
    hide SystemOk, MembersHere, PlatformStep, PlatformRun;
    if i < j {
      RequestStays(c, states, actions, i, j - 1, r);
      StepGrows(c, states[j - 1], actions[j - 1], states[j]);
    }
  }

  // --------------------------------------------------------------- event ids

  /** Every outbox row carries the event id of its investigation's row, and no two rows share one. */
  ghost predicate EventIdsOk(s: System) {
    && s.eventOf.Keys == s.exceptionOf.Keys
    && (forall a, b :: a in s.eventOf && b in s.eventOf && a != b ==> s.eventOf[a] != s.eventOf[b])
    && (forall t :: t in s.transactions ==> CarriesEvents(s, s.transactions[t].events, s.transactions[t].written))
    && CarriesEvents(s, s.outbox, s.written)
  }

  ghost predicate CarriesEvents(s: System, events: multiset<InvestigationId>, written: map<InvestigationId, EventId>) {
    && (forall id :: id in events ==> id in written)
    && (forall id :: id in written ==> id in s.eventOf && written[id] == s.eventOf[id])
  }

  /** Names are given by inserts only, one at a time. */
  lemma NamesAfter(c: Config, s: System, a: SystemAction, s': System)
    requires PlatformStep(c, s, a, s')
    ensures || (s'.eventOf == s.eventOf && s'.exceptionOf == s.exceptionOf)
            || (a.Insert? && a.t in s.transactions && s.transactions[a.t].todo != []
                && a.newId !in s.exceptionOf && a.newEvent !in s.eventOf.Values
                && s'.eventOf == s.eventOf[a.newId := a.newEvent]
                && s'.exceptionOf == s.exceptionOf[a.newId := s.transactions[a.t].todo[0]])
  {
    hide TransactionAfter, Enabled, NoneActive, ReservedElsewhere, CompletedExists, CommittedWorlds, WorldsAfter;
  }

  /** Event ids once given stay, and new ones are new. */
  lemma NamesGrow(c: Config, s: System, a: SystemAction, s': System)
    requires EventIdsOk(s) && PlatformStep(c, s, a, s')
    ensures s'.eventOf.Keys == s'.exceptionOf.Keys
    ensures forall x, y :: x in s'.eventOf && y in s'.eventOf && x != y ==> s'.eventOf[x] != s'.eventOf[y]
    ensures forall id :: id in s.eventOf ==> id in s'.eventOf && s'.eventOf[id] == s.eventOf[id]
  {
    NamesAfter(c, s, a, s');
    hide PlatformStep, CarriesEvents;
    assert forall id :: id in s.eventOf ==> s.eventOf[id] in s.eventOf.Values;
  }

  lemma CarriesStill(s: System, s': System, events: multiset<InvestigationId>, written: map<InvestigationId, EventId>)
    requires CarriesEvents(s, events, written)
    requires forall id :: id in s.eventOf ==> id in s'.eventOf && s'.eventOf[id] == s.eventOf[id]
    ensures CarriesEvents(s', events, written)
  {
  }

  /** Only accepting a created investigation writes an outbox row, with the event id of its row. */
  lemma StatementEvents(c: Config, s: System, a: SystemAction)
    requires SystemEnabled(c, s, a) && Actor(a).Some? && !a.Commit? && !a.Begin? && TransactionAfter(c, s, a).Some?
    ensures var txn, txn' := s.transactions[Actor(a).value], TransactionAfter(c, s, a).value;
            || (txn'.events == txn.events && txn'.written == txn.written)
            || (a.Accept? && txn'.events == txn.events + multiset{txn.phase.placed}
                && txn'.written == txn.written[txn.phase.placed := EventFor(s, txn.phase.placed)])
  {
    hide Enabled, NoneActive, ReservedElsewhere, CompletedExists;
  }

  lemma StatementPuts(c: Config, s: System, a: SystemAction, s': System, t: TransactionId)
    requires PlatformStep(c, s, a, s') && Actor(a) == Some(t)
    ensures SystemEnabled(c, s, a) && (a.Commit? ==> t !in s'.transactions)
    ensures a.Begin? || t in s.transactions
    ensures t in s'.transactions ==> TransactionAfter(c, s, a) == Some(s'.transactions[t])
  {
    hide TransactionAfter, Enabled, NoneActive, ReservedElsewhere, CompletedExists, CommittedWorlds, WorldsAfter;
  }

  /** One outbox row more, with the event id it should have. */
  lemma CarriesOneMore(s: System, events: multiset<InvestigationId>, written: map<InvestigationId, EventId>, id: InvestigationId)
    requires CarriesEvents(s, events, written) && id in s.eventOf
    ensures CarriesEvents(s, events + multiset{id}, written[id := s.eventOf[id]])
  {
  }

  lemma PlacedHasName(c: Config, s: System, t: TransactionId)
    requires SystemOk(c, s) && EventIdsOk(s) && t in s.transactions && s.transactions[t].phase.Placed?
    ensures s.transactions[t].phase.placed in s.eventOf
  {
    assert MembersOk(s.exceptionOf, s.transactions[t]);
  }

  /** What a statement makes of its own transaction's outbox rows. */
  lemma ActorCarries(c: Config, s: System, a: SystemAction, s': System, t: TransactionId)
    requires SystemOk(c, s) && EventIdsOk(s) && PlatformStep(c, s, a, s') && Actor(a) == Some(t) && t in s'.transactions
    requires t in s.transactions ==> CarriesEvents(s', s.transactions[t].events, s.transactions[t].written)
    ensures CarriesEvents(s', s'.transactions[t].events, s'.transactions[t].written)
  {
    StatementPuts(c, s, a, s', t);
    NamesGrow(c, s, a, s');
    if a.Begin? {
      hide SystemOk, EventIdsOk, PlatformStep;
    } else {
      StatementEvents(c, s, a);
      if a.Accept? {
        assert s.transactions[t].phase.Placed?;
        PlacedHasName(c, s, t);
        hide *;
        CarriesOneMore(s', s.transactions[t].events, s.transactions[t].written, s.transactions[t].phase.placed);
      }
    }
  }

  /** What the outbox table carries. */
  lemma LedgerCarries(c: Config, s: System, a: SystemAction, s': System)
    requires EventIdsOk(s) && PlatformStep(c, s, a, s')
    ensures CarriesEvents(s', s'.outbox, s'.written)
  {
    NamesGrow(c, s, a, s');
    CarriesStill(s, s', s.outbox, s.written);
    if a.Commit? {
      assert s'.outbox == s.outbox + s.transactions[a.t].events && s'.written == s.written + s.transactions[a.t].written;
      CarriesStill(s, s', s.transactions[a.t].events, s.transactions[a.t].written);
      hide PlatformStep, EventIdsOk;
    } else {
      LedgerStays(c, s, a, s');
    }
  }

  lemma LedgerStays(c: Config, s: System, a: SystemAction, s': System)
    requires PlatformStep(c, s, a, s') && !a.Commit?
    ensures s'.outbox == s.outbox && s'.written == s.written
  {
    hide TransactionAfter, Enabled, NoneActive, ReservedElsewhere, CompletedExists, CommittedWorlds, WorldsAfter;
    match a {
      case Work(_, _) =>
      case _ =>
    }
  }

  lemma OpenCarries(c: Config, s: System, a: SystemAction, s': System, u: TransactionId)
    requires SystemOk(c, s) && EventIdsOk(s) && PlatformStep(c, s, a, s') && u in s'.transactions
    ensures CarriesEvents(s', s'.transactions[u].events, s'.transactions[u].written)
  {
    NamesGrow(c, s, a, s');
    if u in s.transactions {
      CarriesStill(s, s', s.transactions[u].events, s.transactions[u].written);
    }
    hide *;
    if Actor(a) == Some(u) {
      ActorCarries(c, s, a, s', u);
    } else {
      StatementKeepsOthers(c, s, a, s', u);
    }
  }

  lemma StepKeepsEventIds(c: Config, s: System, a: SystemAction, s': System)
    requires SystemOk(c, s) && EventIdsOk(s) && PlatformStep(c, s, a, s')
    ensures EventIdsOk(s')
  {
    hide SystemOk, PlatformStep, CarriesEvents;
    NamesGrow(c, s, a, s');
    LedgerCarries(c, s, a, s');
    forall u | u in s'.transactions
      ensures CarriesEvents(s', s'.transactions[u].events, s'.transactions[u].written)
    {
      OpenCarries(c, s, a, s', u);
    }
  }

  lemma {:induction false} EventIdsAlwaysOk(c: Config, states: seq<System>, actions: seq<SystemAction>, i: nat)
    requires ValidConfig(c) && PlatformRun(c, states, actions) && i < |states|
    ensures EventIdsOk(states[i])
  {
    hide *;
    RunParts(c, states, actions, i);
    EmptyFiled();
    if i > 0 {
      EventIdsAlwaysOk(c, states, actions, i - 1);
      PlatformAlwaysOk(c, states, actions, i - 1);
      StepKeepsEventIds(c, states[i - 1], actions[i - 1], states[i]);
    }
  }

  // --------------------------------------------------------------- theorems

  /**
    At most one active row per exception, at every point of every run, although
    no update rechecks the index: a row only ever becomes active by its insert.
  */
  lemma {:induction false} OneActiveRowPerException(c: Config, states: seq<System>, actions: seq<SystemAction>, i: nat,
                                 a: InvestigationId, b: InvestigationId)
    requires ValidConfig(c) && PlatformRun(c, states, actions) && i < |states|
    requires RowOf(states[i], a).Some? && Active(RowOf(states[i], a).value.status)
    requires RowOf(states[i], b).Some? && Active(RowOf(states[i], b).value.status)
    requires RowOf(states[i], a).value.exceptionId == RowOf(states[i], b).value.exceptionId
    ensures a == b
  {
    PlatformAlwaysOk(c, states, actions, i);
    assert HoldsSlot(states[i], a) && HoldsSlot(states[i], b);
  }

  /** Committing a rechecked insert finds no completed investigation of its exception. */
  lemma RecheckedAtCommit(c: Config, s: System, t: TransactionId, id: InvestigationId)
    requires SystemOk(c, s) && SystemEnabled(c, s, Commit(t))
    requires s.transactions[t].filtered && id in s.transactions[t].inserted
    ensures !CompletedExists(SystemAfter(c, s, Commit(t)), s.exceptionOf[id])
    ensures RowOf(SystemAfter(c, s, Commit(t)), id) == Some(NewRow(s.exceptionOf[id]))
  {
    var s' := SystemAfter(c, s, Commit(t));
    assert MembersOk(s.exceptionOf, s.transactions[t]) && EventsOk(s.transactions[t]);
    assert !CompletedExists(s, s.exceptionOf[id]);
    forall other | other in s'.worlds
      ensures !HasStatus(s', other, s.exceptionOf[id], {Completed})
    {
      if other !in s.transactions[t].inserted {
        assert RowOf(s', other) == RowOf(s, other);
      }
    }
  }

  /**
    The filtered admission race: whatever commits between a filtered
    transaction's history reads, its insert and its own commit, no exception it
    creates work for has a completed investigation when it commits.
  */
  lemma {:induction false} FilteredAdmissionNeverRepeats(c: Config, states: seq<System>, actions: seq<SystemAction>, i: nat,
                                      t: TransactionId, id: InvestigationId)
    requires ValidConfig(c) && PlatformRun(c, states, actions) && i < |actions|
    requires actions[i] == Commit(t) && t in states[i].transactions
    requires states[i].transactions[t].filtered && id in states[i].transactions[t].inserted && id in states[i].exceptionOf
    ensures RowOf(states[i + 1], id) == Some(NewRow(states[i].exceptionOf[id]))
    ensures !CompletedExists(states[i + 1], states[i].exceptionOf[id])
  {
    PlatformAlwaysOk(c, states, actions, i);
    assert PlatformStep(c, states[i], actions[i], states[i + 1]);
    RecheckedAtCommit(c, states[i], t, id);
  }

  /** The members of a request, in position order 0, 1, ..., are distinct investigations. */
  lemma {:induction false} MembershipIsUnique(c: Config, states: seq<System>, actions: seq<SystemAction>, i: nat, r: RequestId)
    requires ValidConfig(c) && PlatformRun(c, states, actions) && i < |states|
    requires r in states[i].requests
    ensures Distinct(states[i].requests[r])
  {
    PlatformAlwaysOk(c, states, actions, i);
  }

  /**
    Outbox conservation: at every point of every run each committed
    investigation has had exactly one event written, in the commit that
    admitted it and with the event id of its row, which no other row has;
    attached and history-excluded admissions wrote none.
  */
  lemma {:induction false} OneEventPerInvestigation(c: Config, states: seq<System>, actions: seq<SystemAction>, i: nat, id: InvestigationId)
    requires ValidConfig(c) && PlatformRun(c, states, actions) && i < |states|
    ensures states[i].outbox[id] == if id in states[i].worlds then 1 else 0
    ensures id in states[i].worlds ==>
              && id in states[i].eventOf && id in states[i].written && states[i].written[id] == states[i].eventOf[id]
              && forall other :: other in states[i].eventOf && other != id ==> states[i].eventOf[other] != states[i].eventOf[id]
  {
    PlatformAlwaysOk(c, states, actions, i);
    EventIdsAlwaysOk(c, states, actions, i);
  }

  /** No investigation of the platform ever loses its trigger. */
  lemma {:induction false} NoInvestigationLosesItsTrigger(c: Config, states: seq<System>, actions: seq<SystemAction>, i: nat, id: InvestigationId)
    requires ValidConfig(c) && PlatformRun(c, states, actions) && i < |states|
    requires RowOf(states[i], id).Some? && Active(RowOf(states[i], id).value.status)
    ensures states[i].worlds[id].shared.event == Unpublished || states[i].worlds[id].shared.stream != {}
  {
    PlatformAlwaysOk(c, states, actions, i);
  }
}
