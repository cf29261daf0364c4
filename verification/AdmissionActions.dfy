/**
  The two admission actions as the programs they are
  (orchestrator/application/request_investigations.py,
  orchestrator/application/request_filtered_investigations.py `_accept`, and the
  inserts of orchestrator/db/repositories/investigations.py).  Every statement
  is a step of module Admission, and before each of them any number of other
  transactions, workers and reconcilers may commit.
*/
module AdmissionActions {
  import opened Prelude
  import opened Rows
  import opened Protocol
  import opened Delivery
  import opened Admission
  import Selection

  // ------------------------------------------------------------ identifiers

  /** What `str.strip` removes. */
  predicate IsSpace(c: char) {
    var n := c as int;
    || 9 <= n <= 13 || 28 <= n <= 32 || n == 133 || n == 160 || n == 5760
    || 8192 <= n <= 8202 || n == 8232 || n == 8233 || n == 8239 || n == 8287 || n == 12288
  }

  /** One by one: the tab and the line breaks, the separators, and the space and its kin. */
  lemma SpacesAre(c: char)
    ensures IsSpace(c) <==>
              c as int in {0x09, 0x0A, 0x0B, 0x0C, 0x0D, 0x1C, 0x1D, 0x1E, 0x1F, 0x20, 0x85, 0xA0, 0x1680,
                           0x2000, 0x2001, 0x2002, 0x2003, 0x2004, 0x2005, 0x2006, 0x2007, 0x2008, 0x2009, 0x200A,
                           0x2028, 0x2029, 0x202F, 0x205F, 0x3000}
  {
  }

  function StripLeft(s: string): string {
    if s != [] && IsSpace(s[0]) then StripLeft(s[1..]) else s
  }

  function StripRight(s: string): string {
    if s != [] && IsSpace(s[|s| - 1]) then StripRight(s[..|s| - 1]) else s
  }

  function Strip(s: string): string { StripRight(StripLeft(s)) }

  predicate AllSpace(s: string) { forall c :: c in s ==> IsSpace(c) }

  lemma {:induction false} StripLeftDropsSpace(s: string) returns (n: nat)
    ensures n <= |s| && StripLeft(s) == s[n..] && AllSpace(s[..n])
    ensures n < |s| ==> !IsSpace(s[n])
  {
    if s != [] && IsSpace(s[0]) {
      var rest := StripLeftDropsSpace(s[1..]);
      n := rest + 1;
      assert s[..n] == [s[0]] + s[1..][..rest];
    } else {
      n := 0;
    }
  }

  lemma {:induction false} StripRightDropsSpace(s: string) returns (n: nat)
    ensures n <= |s| && StripRight(s) == s[..n] && AllSpace(s[n..])
    ensures n > 0 ==> !IsSpace(s[n - 1])
  {
    if s != [] && IsSpace(s[|s| - 1]) {
      var shorter := s[..|s| - 1];
      n := StripRightDropsSpace(shorter);
      assert s[n..] == shorter[n..] + [s[|s| - 1]];
    } else {
      n := |s|;
    }
  }

  /** Stripping removes space at both ends and nothing else, and all of it. */
  lemma StripMeans(s: string) returns (from: nat, to: nat)
    ensures from <= to <= |s| && Strip(s) == s[from..to]
    ensures AllSpace(s[..from]) && AllSpace(s[to..])
    ensures from < to ==> !IsSpace(s[from]) && !IsSpace(s[to - 1])
  {
    from := StripLeftDropsSpace(s);
    var n := StripRightDropsSpace(s[from..]);
    to := from + n;
    assert s[to..] == s[from..][n..];
  }

  function StripAll(ids: seq<string>): seq<string> {
    seq(|ids|, i requires 0 <= i < |ids| => Strip(ids[i]))
  }

  datatype RequestError = EmptyBatch | BatchTooLarge | BlankIdentifier | StoreUnavailable

  /** `_validate_and_deduplicate`: distinct, nonblank identifiers, each the first of its spellings. */
  function ValidateAndDeduplicate(ids: seq<string>, maximum: nat): (r: Result<seq<string>, RequestError>)
    ensures r.Ok? <==> 0 < |ids| <= maximum && "" !in StripAll(ids)
    ensures r == Err(EmptyBatch) <==> |ids| == 0
    ensures r == Err(BatchTooLarge) <==> |ids| > maximum && |ids| > 0
    ensures r == Err(BlankIdentifier) <==> 0 < |ids| <= maximum && "" in StripAll(ids)
    ensures r.Ok? ==> Distinct(r.value) && r.value != [] && (forall x :: x in r.value <==> x in StripAll(ids))
  {
    if ids == [] then Err(EmptyBatch)
    else if |ids| > maximum then Err(BatchTooLarge)
    else if "" in StripAll(ids) then Err(BlankIdentifier)
    else
      var unique := Selection.FirstOccurrences(StripAll(ids));
      assert StripAll(ids)[0] in unique;
      Ok(unique)
  }

  // ----------------------------------------------------- other transactions

  lemma PlacedIsForIt(c: Config, s: System, t: TransactionId)
    requires SystemOk(c, s) && t in s.transactions && s.transactions[t].phase.Placed?
    ensures var txn := s.transactions[t];
            txn.todo != [] && txn.phase.placed in s.exceptionOf && s.exceptionOf[txn.phase.placed] == txn.todo[0]
  {
    assert MembersOk(s.exceptionOf, s.transactions[t]);
  }

  /** Identifiers once given keep their exception. */
  ghost predicate Grows(before: map<InvestigationId, string>, later: map<InvestigationId, string>) {
    forall id :: id in before ==> id in later && later[id] == before[id]
  }

  /** What somebody who is neither transaction `t` nor filing request `r` can do. */
  predicate SomebodyElses(t: TransactionId, r: RequestId, a: SystemAction) {
    match a
    case Work(_, _) => true
    case Begin(u, request, _, _) => u != t && request != r
    case ReadHistory(u) => u != t
    case Insert(u, _, _) => u != t
    case FindActive(u, _) => u != t
    case Accept(u) => u != t
    case Commit(u) => u != t
    case Abort(u) => u != t
  }

  /** Request identifiers are fresh: nobody else files this one. */
  ghost predicate OwnsRequest(s: System, t: TransactionId, r: RequestId) {
    r !in s.requests && forall u :: u in s.transactions && u != t ==> s.transactions[u].request != r
  }

  lemma StatementKeepsRequest(c: Config, s: System, a: SystemAction)
    requires SystemEnabled(c, s, a) && Actor(a).Some? && !a.Commit? && TransactionAfter(c, s, a).Some?
    ensures TransactionAfter(c, s, a).value.request == if a.Begin? then a.request else s.transactions[Actor(a).value].request
  {
    hide Enabled, NoneActive, ReservedElsewhere, CompletedExists;
  }

  /** Nobody else files the request. */
  lemma ForeignRequest(c: Config, s: System, a: SystemAction, s': System, t: TransactionId, r: RequestId)
    requires PlatformStep(c, s, a, s') && OwnsRequest(s, t, r) && SomebodyElses(t, r, a)
    ensures OwnsRequest(s', t, r)
  {
    if Actor(a).Some? && !a.Commit? && TransactionAfter(c, s, a).Some? {
      StatementKeepsRequest(c, s, a);
    }
    hide TransactionAfter, Enabled, CompletedExists, NoneActive, ReservedElsewhere, CommittedWorlds, WorldsAfter;
  }

  lemma ForeignNames(c: Config, s: System, a: SystemAction, s': System)
    requires PlatformStep(c, s, a, s')
    ensures Grows(s.exceptionOf, s'.exceptionOf)
  {
    hide TransactionAfter, Enabled, CompletedExists, NoneActive, ReservedElsewhere, CommittedWorlds, WorldsAfter;
  }

  /** An open transaction is private: nobody else's commit changes it or files its request. */
  lemma ForeignStep(c: Config, s: System, a: SystemAction, s': System, t: TransactionId)
    requires PlatformStep(c, s, a, s') && t in s.transactions && OwnsRequest(s, t, s.transactions[t].request)
    requires SomebodyElses(t, s.transactions[t].request, a)
    ensures t in s'.transactions && s'.transactions[t] == s.transactions[t]
    ensures OwnsRequest(s', t, s.transactions[t].request)
    ensures Grows(s.exceptionOf, s'.exceptionOf)
  {
    ForeignRequest(c, s, a, s', t, s.transactions[t].request);
    ForeignNames(c, s, a, s');
    hide TransactionAfter, Enabled, CompletedExists, NoneActive, ReservedElsewhere, CommittedWorlds, WorldsAfter, OwnsRequest, Grows;
  }

  // ---------------------------------------------------------------- results

  /** What became of one exception: its investigation, and whether it was created. */
  datatype Admittance = Admittance(id: InvestigationId, created: bool)

  /** A committed row of the exception that is queued or processing. */
  predicate InFlight(worlds: map<InvestigationId, World>, exceptionId: string, id: InvestigationId) {
    && id in worlds && worlds[id].shared.row.Some?
    && var row := worlds[id].shared.row.value;
       row.exceptionId == exceptionId && (row.status == Queued || row.status == Processing)
  }

  predicate Underway(worlds: map<InvestigationId, World>, exceptionId: string) {
    exists id :: id in worlds && InFlight(worlds, exceptionId, id)
  }

  predicate Finished(worlds: map<InvestigationId, World>, exceptionId: string, id: InvestigationId) {
    && id in worlds && worlds[id].shared.row.Some?
    && worlds[id].shared.row.value.exceptionId == exceptionId && worlds[id].shared.row.value.status == Completed
  }

  /** There is a committed completed row of the exception. */
  predicate CompletedBefore(worlds: map<InvestigationId, World>, exceptionId: string) {
    exists id :: id in worlds && Finished(worlds, exceptionId, id)
  }

  /** The transaction has inserted a row for the exception itself. */
  predicate InsertedItself(exceptionOf: map<InvestigationId, string>, inserted: set<InvestigationId>, exceptionId: string) {
    exists id :: id in inserted && id in exceptionOf && exceptionOf[id] == exceptionId
  }

  /** What the statements see, in terms of the rows' statuses. */
  lemma StatusesMeant(c: Config, s: System, t: TransactionId, exceptionId: string)
    requires SystemOk(c, s) && t in s.transactions
    ensures CompletedExists(s, exceptionId) <==> CompletedBefore(s.worlds, exceptionId)
    ensures NoneActive(s, t, exceptionId) <==>
              !Underway(s.worlds, exceptionId) && !InsertedItself(s.exceptionOf, s.transactions[t].inserted, exceptionId)
    ensures forall id :: SeesActive(s, t, exceptionId, id) ==>
              InFlight(s.worlds, exceptionId, id) || id in s.transactions[t].inserted
  {
    assert forall id :: id in s.worlds ==> id in s.exceptionOf;
    hide SystemOk;
    assert forall id :: HasStatus(s, id, exceptionId, {Completed}) <==> Finished(s.worlds, exceptionId, id);
    assert forall id :: HasStatus(s, id, exceptionId, ACTIVE) <==> InFlight(s.worlds, exceptionId, id);
    hide HasStatus, Finished, InFlight;
    if !NoneActive(s, t, exceptionId) {
      var id :| id in s.exceptionOf && SeesActive(s, t, exceptionId, id);
    } else {
      assert forall id :: id in s.exceptionOf ==> !SeesActive(s, t, exceptionId, id);
    }
  }

  /** The insert takes the free slot, or leaves everything but the transaction's phase. */
  lemma InsertDoes(c: Config, s: System, t: TransactionId, newId: InvestigationId, newEvent: EventId)
    requires SystemOk(c, s) && AtWork(s, t) && s.transactions[t].phase.Inserting?
    requires newId !in s.exceptionOf && newEvent !in s.eventOf.Values && !ReservedElsewhere(s, t, s.transactions[t].todo[0])
    ensures SystemEnabled(c, s, Insert(t, newId, newEvent)) && newId !in s.transactions[t].inserted
    ensures forall r :: OwnsRequest(s, t, r) ==> OwnsRequest(SystemAfter(c, s, Insert(t, newId, newEvent)), t, r)
    ensures var s', txn := SystemAfter(c, s, Insert(t, newId, newEvent)), s.transactions[t];
            && s'.worlds == s.worlds && s'.requests == s.requests
            && (if NoneActive(s, t, txn.todo[0])
                then && s'.exceptionOf == s.exceptionOf[newId := txn.todo[0]]
                     && s'.transactions == s.transactions[t := txn.(inserted := txn.inserted + {newId}, phase := Placed(newId, true))]
                else && s'.exceptionOf == s.exceptionOf
                     && s'.transactions == s.transactions[t := txn.(phase := Searching(txn.phase.attempt))]
                     && !NoneActive(s', t, txn.todo[0]))
  {
    var s', e := SystemAfter(c, s, Insert(t, newId, newEvent)), s.transactions[t].todo[0];
    hide SystemOk, ReservedElsewhere;
    if !NoneActive(s, t, e) {
      var id :| id in s.exceptionOf && SeesActive(s, t, e, id);
      assert RowOf(s', id) == RowOf(s, id);
      assert SeesActive(s', t, e, id);
    }
  }

  lemma AttachedStands(worlds: map<InvestigationId, World>, exceptionOf: map<InvestigationId, string>,
                       inserted: set<InvestigationId>, exceptionId: string, id: InvestigationId)
    requires InFlight(worlds, exceptionId, id) || id in inserted
    requires id in exceptionOf && exceptionOf[id] == exceptionId
    ensures Underway(worlds, exceptionId) || InsertedItself(exceptionOf, inserted, exceptionId)
  {
  }

  /** Outcome by outcome, against the same rows and no inserts of the transaction's own. */
  ghost predicate FitAll(worlds: map<InvestigationId, World>, filtered: bool, ids: seq<string>, outcomes: seq<Option<Admittance>>) {
    && |outcomes| <= |ids|
    && forall i :: 0 <= i < |outcomes| ==> Fits(worlds, map[], {}, filtered, ids[i], outcomes[i])
  }

  lemma FitAdded(worlds: map<InvestigationId, World>, filtered: bool, ids: seq<string>, outcomes: seq<Option<Admittance>>,
                 one: Option<Admittance>)
    requires FitAll(worlds, filtered, ids, outcomes) && |outcomes| < |ids|
    requires Fits(worlds, map[], {}, filtered, ids[|outcomes|], one)
    ensures FitAll(worlds, filtered, ids, outcomes + [one])
  {
    hide Fits;
  }

  lemma InsertedBefore(before: map<InvestigationId, string>, later: map<InvestigationId, string>, inserted: set<InvestigationId>,
                       exceptionId: string)
    requires Grows(before, later)
    ensures InsertedItself(before, inserted, exceptionId) ==> InsertedItself(later, inserted, exceptionId)
  {
  }

  /**
    The outcome for one exception, by the rows and the transaction's own inserts
    as they stand: skipped iff filtered with a completed row; else created iff
    no row is queued or processing, and attached to such a row otherwise.
  */
  predicate Fits(worlds: map<InvestigationId, World>, exceptionOf: map<InvestigationId, string>, own: set<InvestigationId>,
                 filtered: bool, exceptionId: string, outcome: Option<Admittance>)
  {
    match outcome
    case None => filtered && CompletedBefore(worlds, exceptionId)
    case Some(a) =>
      && !(filtered && CompletedBefore(worlds, exceptionId))
      && (if a.created
          then !Underway(worlds, exceptionId) && !InsertedItself(exceptionOf, own, exceptionId)
          else InFlight(worlds, exceptionId, a.id) || a.id in own)
  }

  /** The investigations of the exceptions that were not skipped, in order. */
  function Kept(outcomes: seq<Option<Admittance>>): (ids: seq<InvestigationId>)
    ensures |ids| <= |outcomes|
    ensures (forall i :: 0 <= i < |outcomes| ==> outcomes[i].Some?) ==>
              |ids| == |outcomes| && forall i :: 0 <= i < |ids| ==> ids[i] == outcomes[i].value.id
  {
    if outcomes == [] then []
    else
      var before := Kept(outcomes[..|outcomes| - 1]);
      match outcomes[|outcomes| - 1]
      case None => before
      case Some(a) => before + [a.id]
  }

  /** The investigations this transaction created. */
  function Created(outcomes: seq<Option<Admittance>>): (ids: set<InvestigationId>)
    ensures forall id :: id in ids <==> Some(Admittance(id, true)) in outcomes
  {
    set o | o in outcomes && o.Some? && o.value.created :: o.value.id
  }

  predicate AllAdmitted(outcomes: seq<Option<Admittance>>) {
    forall i :: 0 <= i < |outcomes| ==> outcomes[i].Some?
  }

  /** One outcome more. */
  lemma OutcomeAdded(outcomes: seq<Option<Admittance>>, one: Option<Admittance>)
    ensures Kept(outcomes + [one]) == if one.Some? then Kept(outcomes) + [one.value.id] else Kept(outcomes)
    ensures AllAdmitted(outcomes) && one.Some? ==> AllAdmitted(outcomes + [one])
    ensures Created(outcomes + [one]) ==
            if one.Some? && one.value.created then Created(outcomes) + {one.value.id} else Created(outcomes)
  {
  }

  /** Outcome by outcome, each admitted investigation is for its exception. */
  ghost predicate Matching(exceptionOf: map<InvestigationId, string>, ids: seq<string>, outcomes: seq<Option<Admittance>>) {
    && |outcomes| <= |ids|
    && (forall i :: 0 <= i < |outcomes| && outcomes[i].Some? ==>
          outcomes[i].value.id in exceptionOf && exceptionOf[outcomes[i].value.id] == ids[i])
  }

  /** The rows a batch has created so far are for exceptions before the next. */
  lemma OwnAreForOthers(exceptionOf: map<InvestigationId, string>, ids: seq<string>, outcomes: seq<Option<Admittance>>)
    requires Matching(exceptionOf, ids, outcomes) && Distinct(ids) && |outcomes| < |ids|
    ensures forall id :: id in Created(outcomes) ==> id in exceptionOf && exceptionOf[id] != ids[|outcomes|]
  {
    forall id | id in Created(outcomes)
      ensures id in exceptionOf && exceptionOf[id] != ids[|outcomes|]
    {
      var i :| 0 <= i < |outcomes| && outcomes[i] == Some(Admittance(id, true));
      assert outcomes[i].value.id == id;
    }
  }

  /** The transaction's own inserts do not matter when they are for other exceptions. */
  lemma FitsWithoutOwn(worlds: map<InvestigationId, World>, before: map<InvestigationId, string>, later: map<InvestigationId, string>,
                       own: set<InvestigationId>, filtered: bool, exceptionId: string, outcome: Option<Admittance>)
    requires Fits(worlds, before, own, filtered, exceptionId, outcome) && Grows(before, later)
    requires forall id :: id in own ==> id in before && before[id] != exceptionId
    requires outcome.Some? ==> outcome.value.id in later && later[outcome.value.id] == exceptionId
    ensures Fits(worlds, map[], {}, filtered, exceptionId, outcome)
  {
  }

  lemma MatchingAdded(before: map<InvestigationId, string>, later: map<InvestigationId, string>, ids: seq<string>,
                      outcomes: seq<Option<Admittance>>, one: Option<Admittance>)
    requires Matching(before, ids, outcomes) && Grows(before, later) && |outcomes| < |ids|
    requires one.Some? ==> one.value.id in later && later[one.value.id] == ids[|outcomes|]
    ensures Matching(later, ids, outcomes + [one])
    ensures ids[|outcomes|..][1..] == ids[|outcomes + [one]|..]
  {
  }

  // ---------------------------------------------------------------- program

  class AdmissionUnit {
    const config: Config
    const t: TransactionId
    const request: RequestId
    const calm: bool   // no other transaction is open, and nobody else acts meanwhile
    var system: System

    ghost predicate Valid()
      reads this
    {
      ValidConfig(config) && SystemOk(config, system)
    }

    /** This transaction is open, and as the ghost argument says. */
    ghost predicate At(txn: Transaction)
      reads this
    {
      && Valid()
      && t in system.transactions && system.transactions[t] == txn
      && txn.request == request && OwnsRequest(system, t, request)
      && (calm ==> system.transactions.Keys == {t})
    }

    ghost predicate RolledBack()
      reads this
    {
      Valid() && t !in system.transactions && request !in system.requests
    }

    constructor (config: Config, system: System, t: TransactionId, request: RequestId, calm: bool)
      requires ValidConfig(config) && SystemOk(config, system)
      ensures Valid() && this.system == system && this.config == config
      ensures this.t == t && this.request == request && this.calm == calm
    {
      this.config, this.system, this.t, this.request, this.calm := config, system, t, request, calm;
    }

    /** One statement, or one commit of somebody else's. */
    method Do(a: SystemAction)
      requires Valid() && SystemEnabled(config, system, a)
      modifies this
      ensures Valid() && PlatformStep(config, old(system), a, system)
    {
      SystemStepOk(config, system, a);
      system := SystemAfter(config, system, a);
    }

    /** Any number of commits of other transactions, workers and reconcilers. */
    method Others(ghost txn: Transaction)
      requires At(txn)
      modifies this
      ensures At(txn) && Grows(old(system).exceptionOf, system.exceptionOf)
      ensures calm ==> system == old(system)
    {
      var steps: nat := *;
      while !calm && steps > 0
        invariant calm ==> system == old(system)
        invariant At(txn) && Grows(old(system).exceptionOf, system.exceptionOf)
      {
        var a: SystemAction := *;
        if SomebodyElses(t, request, a) && SystemEnabled(config, system, a) {
          ghost var before := system;
          Do(a);
          ForeignStep(config, before, a, system, t);
        }
        steps := steps - 1;
      }
    }

    /** An exception leaves the unit of work, which rolls back. */
    method Rollback(ghost txn: Transaction)
      requires At(txn)
      modifies this
      ensures RolledBack() && system.exceptionOf == old(system).exceptionOf
    {
      Do(Abort(t));
    }

    /** The statement itself: under a fresh identifier, unless the index has an active row. */
    method InsertRow(ghost txn: Transaction) returns (inserted: Option<InvestigationId>)
      requires At(txn) && txn.todo != [] && txn.phase.Inserting? && !ReservedElsewhere(system, t, txn.todo[0])
      modifies this
      ensures Grows(old(system).exceptionOf, system.exceptionOf) && system.worlds == old(system).worlds
      ensures inserted.Some? <==> NoneActive(old(system), t, txn.todo[0])
      ensures inserted.None? ==>
                && system.exceptionOf == old(system).exceptionOf
                && At(txn.(phase := Searching(txn.phase.attempt)))
                && !NoneActive(system, t, txn.todo[0])
      ensures inserted.Some? ==>
                && At(txn.(inserted := txn.inserted + {inserted.value}, phase := Placed(inserted.value, true)))
                && inserted.value in system.exceptionOf && system.exceptionOf[inserted.value] == txn.todo[0]
                && inserted.value !in txn.inserted
    {
      hide ReservedElsewhere, NoneActive, SystemOk, SystemAfter, TransactionAfter, SystemEnabled, OwnsRequest;
      var newId := FreshIdentifier(system.exceptionOf.Keys);  // uuid.uuid4
      var newEvent := FreshIdentifier(system.eventOf.Values);
      var free := NoneActive(system, t, system.transactions[t].todo[0]);
      InsertDoes(config, system, t, newId, newEvent);
      Do(Insert(t, newId, newEvent));
      return if free then Some(newId) else None;
    }

    /**
      `INSERT ... ON CONFLICT DO NOTHING`: waits for
      another transaction's uncommitted insert, and fails if that wait is broken
      off.
    */
    method TryInsert(ghost txn: Transaction) returns (r: Result<Option<InvestigationId>, RequestError>)
      requires At(txn) && txn.todo != [] && txn.phase.Inserting?
      modifies this
      ensures Grows(old(system).exceptionOf, system.exceptionOf)
      ensures r.Err? ==> RolledBack()
      ensures calm ==> r.Ok?
      ensures r == Ok(None) ==> At(txn.(phase := Searching(txn.phase.attempt)))
      ensures r == Ok(None) && calm ==> !NoneActive(system, t, txn.todo[0])
      ensures r.Ok? && r.value.Some? ==>
                && !Underway(system.worlds, txn.todo[0])
                && !InsertedItself(old(system).exceptionOf, txn.inserted, txn.todo[0])
      ensures calm ==> system.worlds == old(system).worlds
      ensures calm && r == Ok(None) ==> system.exceptionOf == old(system).exceptionOf
      ensures r.Ok? && r.value.Some? ==>
                At(txn.(inserted := txn.inserted + {r.value.value}, phase := Placed(r.value.value, true)))
      ensures r.Ok? && r.value.Some? ==> r.value.value in system.exceptionOf && system.exceptionOf[r.value.value] == txn.todo[0]
      ensures r.Ok? && r.value.Some? ==> r.value.value !in txn.inserted
    {
      hide SystemOk, Underway, InsertedItself, CompletedBefore, NoneActive, PlatformStep;
      ghost var exceptionOf := system.exceptionOf;
      Others(txn);
      StatusesMeant(config, system, t, txn.todo[0]);
      InsertedBefore(exceptionOf, system.exceptionOf, txn.inserted, txn.todo[0]);
      if ReservedElsewhere(system, t, system.transactions[t].todo[0]) {
        Rollback(txn);
        return Err(StoreUnavailable);
      }
      var inserted := InsertRow(txn);
      return Ok(inserted);
    }

    /** `_active_for_exception`: any active row this transaction can see now. */
    method FindActiveRow(ghost txn: Transaction) returns (found: Option<InvestigationId>)
      requires At(txn) && txn.todo != [] && txn.phase.Searching?
      modifies this
      ensures Grows(old(system).exceptionOf, system.exceptionOf)
      ensures found.Some? ==> At(txn.(phase := Placed(found.value, false)))
      ensures calm && !NoneActive(old(system), t, txn.todo[0]) ==> found.Some?
      ensures found.None? && txn.phase.attempt == 0 ==> At(txn.(phase := Inserting(1)))
      ensures found.None? && txn.phase.attempt > 0 ==> RolledBack()
      ensures found.Some? ==> found.value in system.exceptionOf && system.exceptionOf[found.value] == txn.todo[0]
      ensures found.Some? ==> InFlight(system.worlds, txn.todo[0], found.value) || found.value in txn.inserted
      ensures calm ==> system.worlds == old(system).worlds && system.exceptionOf == old(system).exceptionOf
    {
      hide SystemOk, InFlight, Underway, InsertedItself, CompletedBefore;
      Others(txn);
      StatusesMeant(config, system, t, txn.todo[0]);
      var e := system.transactions[t].todo[0];
      found := None;
      if !NoneActive(system, t, e) {
        var id :| id in system.exceptionOf && SeesActive(system, t, e, id);
        found := Some(id);
      }
      Do(FindActive(t, found));
      if found.Some? {
        PlacedIsForIt(config, system, t);
      }
    }

    /**
      `insert_or_attach`: at most two rounds of inserting and, on a conflict,
      looking for the active row; if it has gone both times, an error.  A row is
      created only when none of the exception is queued or processing, and what
      is attached is queued or processing when it is found.
    */
    method InsertOrAttach(ghost txn: Transaction) returns (r: Result<Admittance, RequestError>)
      requires At(txn) && txn.todo != [] && txn.phase == Inserting(0)
      modifies this
      ensures Grows(old(system).exceptionOf, system.exceptionOf)
      ensures r.Err? ==> RolledBack() && !calm
      ensures r.Ok? ==> At(txn.(inserted := if r.value.created then txn.inserted + {r.value.id} else txn.inserted,
                                phase := Placed(r.value.id, r.value.created)))
      ensures r.Ok? ==> r.value.id in system.exceptionOf && system.exceptionOf[r.value.id] == txn.todo[0]
      ensures r.Ok? && r.value.created ==> r.value.id !in txn.inserted
      ensures r.Ok? ==> if r.value.created
                        then && !Underway(system.worlds, txn.todo[0])
                             && !InsertedItself(old(system).exceptionOf, txn.inserted, txn.todo[0])
                        else InFlight(system.worlds, txn.todo[0], r.value.id) || r.value.id in txn.inserted
      ensures calm ==> system.worlds == old(system).worlds
      ensures calm ==>
                (r.value.created <==> && !Underway(old(system).worlds, txn.todo[0])
                                      && !InsertedItself(old(system).exceptionOf, txn.inserted, txn.todo[0]))
    {
      hide SystemOk, Underway, InsertedItself, InFlight, CompletedBefore, NoneActive;
      var attempt := 0;
      while attempt < 2
        invariant 0 <= attempt <= 2
        invariant Grows(old(system).exceptionOf, system.exceptionOf)
        invariant if attempt < 2 then At(txn.(phase := Inserting(attempt))) else RolledBack()
        invariant calm ==> attempt == 0 && system.worlds == old(system).worlds && system.exceptionOf == old(system).exceptionOf
      {
        ghost var txn' := txn.(phase := Inserting(attempt));
        InsertedBefore(old(system).exceptionOf, system.exceptionOf, txn.inserted, txn.todo[0]);
        var inserted := TryInsert(txn');
        if inserted.Err? {
          return Err(inserted.error);
        }
        if inserted.value.Some? {
          return Ok(Admittance(inserted.value.value, true));
        }
        var active := FindActiveRow(txn'.(phase := Searching(attempt)));
        if active.Some? {
          if calm {
            AttachedStands(system.worlds, system.exceptionOf, txn.inserted, txn.todo[0], active.value);
          }
          return Ok(Admittance(active.value, false));
        }
        attempt := attempt + 1;
      }
      return Err(StoreUnavailable);
    }

    /** `completed_exception_ids` on one exception, against a fresh snapshot. */
    method HasHistory(ghost txn: Transaction) returns (completed: bool)
      requires At(txn) && txn.todo != [] && txn.phase == Ready
      modifies this
      ensures Grows(old(system).exceptionOf, system.exceptionOf)
      ensures At(if completed then Next(txn) else txn.(phase := Inserting(0)))
      ensures completed <==> CompletedBefore(system.worlds, txn.todo[0])
      ensures calm ==> system.worlds == old(system).worlds && system.exceptionOf == old(system).exceptionOf
    {
      hide SystemOk, CompletedBefore, NoneActive, Underway, InsertedItself;
      Others(txn);
      StatusesMeant(config, system, t, txn.todo[0]);
      completed := CompletedExists(system, system.transactions[t].todo[0]);
      Do(ReadHistory(t));
    }

    /** The second history read, the outbox row of a created investigation, and its membership row. */
    method Admit(ghost txn: Transaction) returns (kept: bool)
      requires At(txn) && txn.todo != [] && txn.phase.Placed?
      modifies this
      ensures Grows(old(system).exceptionOf, system.exceptionOf)
      ensures !txn.filtered ==> kept
      ensures kept ==> At(Next(txn).(members := txn.members + [txn.phase.placed],
                                     events := if txn.phase.created then txn.events + multiset{txn.phase.placed} else txn.events,
                                     written := if txn.phase.created then txn.written[txn.phase.placed := EventFor(system, txn.phase.placed)]
                                                else txn.written))
      ensures !kept ==> At(Next(txn).(inserted := if txn.phase.created then txn.inserted - {txn.phase.placed} else txn.inserted))
      ensures kept <==> !(txn.filtered && CompletedBefore(system.worlds, txn.todo[0]))
      ensures calm ==> system.worlds == old(system).worlds && system.exceptionOf == old(system).exceptionOf
    {
      hide SystemOk, CompletedBefore, NoneActive, Underway, InsertedItself;
      Others(txn);
      StatusesMeant(config, system, t, txn.todo[0]);
      kept := !(system.transactions[t].filtered && CompletedExists(system, system.transactions[t].todo[0]));
      Do(Accept(t));
    }

    /** The transaction with its exceptions `todo` still to come and `members` admitted so far. */
    ghost predicate Pending(filtered: bool, todo: seq<string>, members: seq<InvestigationId>, created: set<InvestigationId>)
      reads this
    {
      && t in system.transactions
      && At(system.transactions[t])
      && system.transactions[t].filtered == filtered
      && system.transactions[t].todo == todo
      && system.transactions[t].phase == FirstPhase(filtered)
      && system.transactions[t].members == members
      && system.transactions[t].inserted == created
    }

    /**
      `request_one` and the membership row its caller adds: one exception more.
      Only a filtered request can skip it.
    */
    method RequestOne(filtered: bool, ghost todo: seq<string>, ghost members: seq<InvestigationId>, ghost created: set<InvestigationId>)
      returns (r: Result<Option<Admittance>, RequestError>)
      requires Pending(filtered, todo, members, created) && todo != []
      modifies this
      ensures Grows(old(system).exceptionOf, system.exceptionOf)
      ensures r.Err? ==> RolledBack() && !calm
      ensures r == Ok(None) ==> filtered && Pending(filtered, todo[1..], members, created)
      ensures r.Ok? && r.value.Some? ==>
                && Pending(filtered, todo[1..], members + [r.value.value.id],
                           if r.value.value.created then created + {r.value.value.id} else created)
                && (r.value.value.created ==> r.value.value.id !in created)
                && r.value.value.id in system.exceptionOf
                && system.exceptionOf[r.value.value.id] == todo[0]
      ensures r.Ok? && r.value.Some? && filtered ==> !CompletedBefore(system.worlds, todo[0])
      ensures r == Ok(None) ==> CompletedBefore(system.worlds, todo[0])
      ensures calm ==> system.worlds == old(system).worlds
      ensures calm ==> r.Ok? && Fits(old(system).worlds, old(system).exceptionOf, created, filtered, todo[0], r.value)
    {
      hide SystemOk, CompletedBefore, Underway, InsertedItself, InFlight;
      ghost var txn := system.transactions[t];
      if filtered {
        var completed := HasHistory(txn);
        if completed {
          return Ok(None);
        }
        txn := txn.(phase := Inserting(0));
      }
      var placed := InsertOrAttach(txn);
      if placed.Err? {
        return Err(placed.error);
      }
      txn := txn.(inserted := if placed.value.created then txn.inserted + {placed.value.id} else txn.inserted,
                  phase := Placed(placed.value.id, placed.value.created));
      var kept := Admit(txn);
      if !kept {
        assert created + {placed.value.id} - {placed.value.id} == created || !placed.value.created;
        return Ok(None);
      }
      return Ok(Some(placed.value));
    }

    /** On a calm day, the outcomes so far fit the rows as they stood when the batch was begun. */
    ghost predicate FitsSoFar(worlds: map<InvestigationId, World>, filtered: bool, ids: seq<string>, outcomes: seq<Option<Admittance>>)
      reads this
    {
      calm ==> system.worlds == worlds && FitAll(worlds, filtered, ids, outcomes)
    }

    /** The batch `ids` with the outcomes so far. */
    ghost predicate Progress(filtered: bool, ids: seq<string>, outcomes: seq<Option<Admittance>>)
      reads this
    {
      && Matching(system.exceptionOf, ids, outcomes)
      && (!filtered ==> AllAdmitted(outcomes))
      && Pending(filtered, ids[|outcomes|..], Kept(outcomes), Created(outcomes))
    }

    method RequestNext(filtered: bool, ghost ids: seq<string>, ghost outcomes: seq<Option<Admittance>>,
                       ghost worlds: map<InvestigationId, World>)
      returns (r: Result<Option<Admittance>, RequestError>)
      requires Progress(filtered, ids, outcomes) && |outcomes| < |ids| && Distinct(ids)
      requires FitsSoFar(worlds, filtered, ids, outcomes)
      modifies this
      ensures r.Err? ==> RolledBack() && !calm
      ensures r.Ok? ==> Progress(filtered, ids, outcomes + [r.value]) && FitsSoFar(worlds, filtered, ids, outcomes + [r.value])
    {
      hide SystemOk, Fits, FitAll, Kept, Created, Distinct, At, AllAdmitted;
      ghost var before := system.exceptionOf;
      OwnAreForOthers(before, ids, outcomes);
      r := RequestOne(filtered, ids[|outcomes|..], Kept(outcomes), Created(outcomes));
      if r.Ok? {
        MatchingAdded(before, system.exceptionOf, ids, outcomes, r.value);
        OutcomeAdded(outcomes, r.value);
        if calm {
          FitsWithoutOwn(worlds, before, system.exceptionOf, Created(outcomes), filtered, ids[|outcomes|], r.value);
          FitAdded(worlds, filtered, ids, outcomes, r.value);
        }
        assert Pending(filtered, ids[|outcomes + [r.value]|..], Kept(outcomes + [r.value]), Created(outcomes + [r.value]));
      }
    }

    /** The loop over a batch, up to but not including the commit. */
    method RequestAll(filtered: bool, ids: seq<string>) returns (r: Result<seq<Option<Admittance>>, RequestError>)
      requires Pending(filtered, ids, [], {}) && Distinct(ids)
      modifies this
      ensures r.Err? ==> RolledBack() && !calm
      ensures r.Ok? ==> |r.value| == |ids| && Progress(filtered, ids, r.value)
      ensures r.Ok? ==> FitsSoFar(old(system).worlds, filtered, ids, r.value)
    {
      hide SystemOk, Fits;
      var outcomes: seq<Option<Admittance>> := [];
      assert Progress(filtered, ids, outcomes);
      while |outcomes| < |ids|
        invariant |outcomes| <= |ids| && Progress(filtered, ids, outcomes)
        invariant FitsSoFar(old(system).worlds, filtered, ids, outcomes)
      {
        var one := RequestNext(filtered, ids, outcomes, old(system).worlds);
        if one.Err? {
          return Err(one.error);
        }
        outcomes := outcomes + [one.value];
      }
      return Ok(outcomes);
    }

    /** The commit of the unit of work. */
    method CommitUnit(filtered: bool, ghost members: seq<InvestigationId>, ghost created: set<InvestigationId>)
      requires Pending(filtered, [], members, created)
      modifies this
      ensures Valid() && t !in system.transactions
      ensures Grows(old(system).exceptionOf, system.exceptionOf)
      ensures request in system.requests && system.requests[request] == members && Distinct(members)
      ensures forall id :: id in created ==> Delivered(filtered, id)
    {
      Others(system.transactions[t]);
      CommitDelivers(config, system, t);
      assert MembersOk(system.exceptionOf, system.transactions[t]);
      Do(Commit(t));
    }

    /** A created investigation: a queued row and its one event, and no completed one beside it if it was filtered for. */
    ghost predicate Delivered(filtered: bool, id: InvestigationId)
      reads this
    {
      && id in system.exceptionOf
      && RowOf(system, id) == Some(NewRow(system.exceptionOf[id]))
      && system.outbox[id] == 1
      && (filtered ==> !CompletedExists(system, system.exceptionOf[id]))
    }

    method Open(filtered: bool, ids: seq<string>)
      requires Valid() && t !in system.transactions && OwnsRequest(system, t, request) && Distinct(ids)
      requires calm ==> system.transactions == map[]
      modifies this
      ensures Pending(filtered, ids, [], {}) && system.worlds == old(system).worlds
    {
      hide SystemOk;
      Do(Begin(t, request, filtered, ids));
    }

    /**
      A batch in one unit of work: `RequestInvestigations.execute` from its
      transaction on, and `_accept` on what was selected.  Either everything is
      committed under the request, at positions in the order of the batch, or
      nothing of it is.  Undisturbed it is committed, and each outcome fits the
      rows as they stood.
    */
    method AdmitBatch(filtered: bool, ids: seq<string>) returns (r: Result<seq<Option<Admittance>>, RequestError>)
      requires Valid() && t !in system.transactions && OwnsRequest(system, t, request) && Distinct(ids)
      requires calm ==> system.transactions == map[]
      modifies this
      ensures Valid() && t !in system.transactions
      ensures r.Err? ==> request !in system.requests && !calm
      ensures r.Ok? ==> |r.value| == |ids| && Matching(system.exceptionOf, ids, r.value)
      ensures r.Ok? && !filtered ==> forall i :: 0 <= i < |ids| ==> r.value[i].Some?
      ensures r.Ok? ==>
                request in system.requests && system.requests[request] == Kept(r.value) && Distinct(Kept(r.value))
      ensures r.Ok? ==> forall id :: id in Created(r.value) ==> Delivered(filtered, id)
      ensures calm ==> forall i :: 0 <= i < |ids| ==> Fits(old(system).worlds, map[], {}, filtered, ids[i], r.value[i])
    {
      hide SystemOk, Fits, Delivered, Distinct, OwnsRequest, PlatformStep;
      Open(filtered, ids);
      r := RequestAll(filtered, ids);
      if r.Ok? {
        CommitUnit(filtered, Kept(r.value), Created(r.value));
      }
    }

    /** `RequestInvestigations.execute`. */
    method Execute(exceptionIds: seq<string>, maximum: nat) returns (r: Result<seq<Option<Admittance>>, RequestError>)
      requires Valid() && t !in system.transactions && OwnsRequest(system, t, request)
      requires calm ==> system.transactions == map[]
      modifies this
      ensures Valid()
      ensures r.Err? ==> request !in system.requests
      ensures calm ==> (r.Ok? <==> ValidateAndDeduplicate(exceptionIds, maximum).Ok?)
      ensures ValidateAndDeduplicate(exceptionIds, maximum).Err? ==>
                r == Err(ValidateAndDeduplicate(exceptionIds, maximum).error) && system == old(system)
      ensures r.Ok? ==>
                var ids := ValidateAndDeduplicate(exceptionIds, maximum).value;
                && request in system.requests
                && |system.requests[request]| == |r.value| == |ids|
                && Distinct(system.requests[request])
                && (forall i :: 0 <= i < |ids| ==>
                      && system.requests[request][i] in system.exceptionOf
                      && system.exceptionOf[system.requests[request][i]] == ids[i]
                      && (calm ==> Fits(old(system).worlds, map[], {}, false, ids[i], r.value[i])))
    {
      hide Fits;
      var normalized := ValidateAndDeduplicate(exceptionIds, maximum);
      if normalized.Err? {
        return Err(normalized.error);
      }
      r := AdmitBatch(false, normalized.value);
    }
  }

  /** What a commit makes of an insert: a queued row, one event, and, if filtered for, no repeat. */
  lemma CommitDeliversOne(c: Config, s: System, t: TransactionId, id: InvestigationId)
    requires ValidConfig(c) && SystemOk(c, s) && SystemEnabled(c, s, Commit(t)) && id in s.transactions[t].inserted
    ensures var s' := SystemAfter(c, s, Commit(t));
            && id in s'.exceptionOf
            && RowOf(s', id) == Some(NewRow(s'.exceptionOf[id]))
            && s'.outbox[id] == 1
            && (s.transactions[t].filtered ==> !CompletedExists(s', s'.exceptionOf[id]))
  {
    CommitSlots(c, s, t);
    CommitKeepsOutbox(c, s, t);
    if s.transactions[t].filtered {
      RecheckedAtCommit(c, s, t, id);
    }
    hide SystemOk, CompletedExists;
  }

  lemma CommitDelivers(c: Config, s: System, t: TransactionId)
    requires ValidConfig(c) && SystemOk(c, s) && SystemEnabled(c, s, Commit(t))
    ensures var s' := SystemAfter(c, s, Commit(t));
            forall id :: id in s.transactions[t].inserted ==>
              && id in s'.exceptionOf
              && RowOf(s', id) == Some(NewRow(s'.exceptionOf[id]))
              && s'.outbox[id] == 1
              && (s.transactions[t].filtered ==> !CompletedExists(s', s'.exceptionOf[id]))
  {
    forall id | id in s.transactions[t].inserted
      ensures var s' := SystemAfter(c, s, Commit(t));
              && id in s'.exceptionOf
              && RowOf(s', id) == Some(NewRow(s'.exceptionOf[id]))
              && s'.outbox[id] == 1
              && (s.transactions[t].filtered ==> !CompletedExists(s', s'.exceptionOf[id]))
    {
      CommitDeliversOne(c, s, t, id);
    }
  }
}
