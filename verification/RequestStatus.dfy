/**
  The view a client polls (orchestrator/application/query_status.py and
  orchestrator/domain/investigation.py): a request's member investigations,
  summarised.
*/
module RequestStatus {
  import opened Prelude
  import opened Rows
  import opened Reconciliation
  import opened Protocol
  import opened Delivery
  import opened Admission

  datatype ExternalStatus = InProgress | ExternallyCompleted | ExternallyFailed | NotFound

  function External(status: Status): ExternalStatus {
    match status
    case Queued => InProgress
    case Processing => InProgress
    case Completed => ExternallyCompleted
    case Failed => ExternallyFailed
  }

  datatype Summary = Summary(total: nat, inProgress: nat, completed: nat, failed: nat)

  datatype Aggregate = SomeInProgress | AllCompleted | SomeFailed

  function AggregateStatus(s: Summary): Aggregate {
    if s.inProgress > 0 then SomeInProgress else if s.failed > 0 then SomeFailed else AllCompleted
  }

  function Count(items: seq<ExternalStatus>, status: ExternalStatus): nat {
    multiset(items)[status]
  }

  function SummaryOf(items: seq<ExternalStatus>): Summary {
    Summary(|items|, Count(items, InProgress), Count(items, ExternallyCompleted), Count(items, ExternallyFailed))
  }

  /** `_summarize`: one pass over the items, counting in a dictionary. */
  method Summarize(items: seq<ExternalStatus>) returns (summary: Summary)
    ensures summary == SummaryOf(items)
  {
    var counts: map<ExternalStatus, nat> :=
      map[InProgress := 0, ExternallyCompleted := 0, ExternallyFailed := 0, NotFound := 0];
    for i := 0 to |items|
      invariant counts.Keys == {InProgress, ExternallyCompleted, ExternallyFailed, NotFound}
      invariant forall st :: st in counts ==> counts[st] == Count(items[..i], st)
    {
      assert items[..i + 1] == items[..i] + [items[i]];
      assert items[i].InProgress? || items[i].ExternallyCompleted? || items[i].ExternallyFailed? || items[i].NotFound?;
      counts := counts[items[i] := counts[items[i]] + 1];
    }
    assert items[..|items|] == items;
    summary := Summary(|items|, counts[InProgress], counts[ExternallyCompleted], counts[ExternallyFailed]);
  }

  /** `by_api_request_id`: the members' rows in position order; a deleted row drops out. */
  function Items(s: System, members: seq<InvestigationId>): (items: seq<ExternalStatus>)
    ensures |items| <= |members|
    ensures NotFound !in items
  {
    if members == [] then []
    else
      var row := RowOf(s, members[0]);
      (if row.Some? then [External(row.value.status)] else []) + Items(s, members[1..])
  }

  /** Nothing is counted twice or left out. */
  lemma {:induction false} TotalIsTheSum(items: seq<ExternalStatus>)
    requires NotFound !in items
    ensures var s := SummaryOf(items); s.total == s.inProgress + s.completed + s.failed
  {
    if items != [] {
      assert items == [items[0]] + items[1..];
      assert forall st :: Count(items, st) == (if items[0] == st then 1 else 0) + Count(items[1..], st);
      assert items[0].InProgress? || items[0].ExternallyCompleted? || items[0].ExternallyFailed?;
      TotalIsTheSum(items[1..]);
    }
  }

  predicate Shows(s: System, id: InvestigationId, status: ExternalStatus) {
    RowOf(s, id).Some? && External(RowOf(s, id).value.status) == status
  }

  predicate SomeShows(s: System, members: seq<InvestigationId>, status: ExternalStatus) {
    exists m :: m in members && Shows(s, m, status)
  }

  /** A status is counted iff some member's row has it. */
  lemma {:induction false} CountedIffShown(s: System, members: seq<InvestigationId>, status: ExternalStatus)
    ensures Count(Items(s, members), status) > 0 <==> SomeShows(s, members, status)
  {
    if members != [] {
      var first, rest := members[0], members[1..];
      CountedIffShown(s, rest, status);
      var row := RowOf(s, first);
      var items := if row.Some? then [External(row.value.status)] else [];
      assert Items(s, members) == items + Items(s, rest);
      assert Count(Items(s, members), status) == Count(items, status) + Count(Items(s, rest), status);
      assert SomeShows(s, members, status) <==> Shows(s, first, status) || SomeShows(s, rest, status) by {
        assert forall m :: m in members <==> m == first || m in rest;
      }
    }
  }

  /**
    What the one word says: in progress iff some member is queued or processing,
    completed iff every member still there is completed.
  */
  lemma AggregateMeans(s: System, members: seq<InvestigationId>)
    ensures var aggregate := AggregateStatus(SummaryOf(Items(s, members)));
            && (aggregate.SomeInProgress? <==> exists m :: m in members && RowOf(s, m).Some? && Active(RowOf(s, m).value.status))
            && (aggregate.AllCompleted? <==> forall m :: m in members && RowOf(s, m).Some? ==> RowOf(s, m).value.status == Completed)
  {
    CountedIffShown(s, members, InProgress);
    CountedIffShown(s, members, ExternallyFailed);
    assert forall m :: Shows(s, m, InProgress) <==> RowOf(s, m).Some? && Active(RowOf(s, m).value.status);
    assert forall m :: Shows(s, m, ExternallyFailed) <==> RowOf(s, m).Some? && RowOf(s, m).value.status == Failed;
  }

  // ------------------------------------------------------------ monotonicity

  /** No member's row is deleted between the two states. */
  predicate NoneDeleted(s: System, s': System, members: seq<InvestigationId>) {
    forall m :: m in members && RowOf(s, m).Some? ==> RowOf(s', m).Some?
  }

  /** The summary of `s'` is a later one of the same work than that of `s`. */
  predicate Progressed(before: Summary, after: Summary) {
    && after.total == before.total
    && after.inProgress <= before.inProgress
    && after.completed >= before.completed
    && after.failed >= before.failed
  }

  lemma {:induction false} RowsProgress(s: System, s': System, members: seq<InvestigationId>)
    requires forall m :: m in members ==> RowEvolves(RowOf(s, m), RowOf(s', m))
    requires NoneDeleted(s, s', members)
    ensures Progressed(SummaryOf(Items(s, members)), SummaryOf(Items(s', members)))
  {
    if members != [] {
      var rest := members[1..];
      assert members == [members[0]] + rest;
      RowsProgress(s, s', rest);
      assert RowEvolves(RowOf(s, members[0]), RowOf(s', members[0]));
    }
  }

  /** A step of the platform lets every committed row evolve. */
  lemma StepEvolves(c: Config, s: System, a: SystemAction, id: InvestigationId)
    requires ValidConfig(c) && SystemOk(c, s) && SystemEnabled(c, s, a) && id in s.worlds
    ensures RowEvolves(RowOf(s, id), RowOf(SystemAfter(c, s, a), id))
    ensures id in SystemAfter(c, s, a).worlds
  {
    if a.Work? {
      WorkKeepsRows(c, s, a.at, a.moves, id);
    } else if a.Commit? {
      assert id !in s.transactions[a.t].inserted;
    }
  }

  lemma StepProgresses(c: Config, s: System, a: SystemAction, members: seq<InvestigationId>)
    requires ValidConfig(c) && SystemOk(c, s) && SystemEnabled(c, s, a)
    requires forall m :: m in members ==> m in s.worlds
    requires NoneDeleted(s, SystemAfter(c, s, a), members)
    ensures Progressed(SummaryOf(Items(s, members)), SummaryOf(Items(SystemAfter(c, s, a), members)))
    ensures forall m :: m in members ==> m in SystemAfter(c, s, a).worlds
  {
    var s' := SystemAfter(c, s, a);
    hide SystemOk, SystemEnabled, SystemAfter, RowEvolves, Items, Progressed, NoneDeleted;
    forall m | m in members
      ensures RowEvolves(RowOf(s, m), RowOf(s', m)) && m in s'.worlds
    {
      StepEvolves(c, s, a, m);
    }
    RowsProgress(s, s', members);
  }

  lemma {:induction false} RunProgresses(c: Config, states: seq<System>, actions: seq<SystemAction>, i: nat, j: nat,
                                         members: seq<InvestigationId>)
    requires ValidConfig(c) && PlatformRun(c, states, actions) && i <= j < |states|
    requires forall m :: m in members ==> m in states[i].worlds
    requires forall k :: i <= k < j ==> NoneDeleted(states[k], states[k + 1], members)
    ensures Progressed(SummaryOf(Items(states[i], members)), SummaryOf(Items(states[j], members)))
    ensures forall m :: m in members ==> m in states[j].worlds
    decreases j - i
  {
    if i < j {
      var s, a := states[j - 1], actions[j - 1];
      RunProgresses(c, states, actions, i, j - 1, members);
      PlatformAlwaysOk(c, states, actions, j - 1);
      assert PlatformStep(c, s, a, states[j]);
      StepProgresses(c, s, a, members);
    }
  }

  /** Once nothing is in progress, nothing can move. */
  lemma TerminalSummaryStays(before: Summary, after: Summary)
    requires Progressed(before, after)
    requires before.total == before.inProgress + before.completed + before.failed
    requires after.total == after.inProgress + after.completed + after.failed
    ensures !AggregateStatus(before).SomeInProgress? ==> after == before
  {
  }

  /**
    Polled progress is monotone: between any two points of any run in which
    retention deletes none of a request's members, what a client polls of the
    request keeps its total, its in-progress count never rises, and a terminal
    aggregate never changes.
  */
  lemma {:induction false} PolledProgressIsMonotone(c: Config, states: seq<System>, actions: seq<SystemAction>, i: nat, j: nat,
                                                    r: RequestId)
    requires ValidConfig(c) && PlatformRun(c, states, actions) && i <= j < |states|
    requires r in states[i].requests
    requires forall k :: i <= k < j ==> NoneDeleted(states[k], states[k + 1], states[i].requests[r])
    ensures r in states[j].requests && states[j].requests[r] == states[i].requests[r]
    ensures var before, after := Polled(states[i], r), Polled(states[j], r);
            && Progressed(before, after)
            && before.total == before.inProgress + before.completed + before.failed
            && (!AggregateStatus(before).SomeInProgress? ==> after == before)
  {
    var members := states[i].requests[r];
    RequestStays(c, states, actions, i, i, r);
    RequestStays(c, states, actions, i, j, r);
    RunProgresses(c, states, actions, i, j, members);
    TotalIsTheSum(Items(states[i], members));
    TotalIsTheSum(Items(states[j], members));
    TerminalSummaryStays(Polled(states[i], r), Polled(states[j], r));
  }

  /** The summary a client is given of request `r`. */
  function Polled(s: System, r: RequestId): Summary
    requires r in s.requests
  {
    SummaryOf(Items(s, s.requests[r]))
  }
}
