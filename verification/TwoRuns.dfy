/**
  Why the guarantees of CheckpointOrder need their hypothesis, and need it as it
  is stated.  The fence of a checkpoint write names the worker id only.  So a
  worker that reclaims its own expired lease while its old run is still going
  has two runs the database cannot tell apart; and a claim that is committed but
  whose answer is lost hands the row back to an old run of the worker, although
  no second run ever starts.
*/
module TwoRuns {
  import opened Prelude
  import opened Rows
  import opened Checkpoints
  import opened Reconciliation
  import opened Protocol
  import opened CheckpointOrder

  const C := Config(30.0, 5, true, true)
  const W: WorkerId := 7
  const V: WorkerId := 8
  const INIT := InitialWorld("EX-1", 1)
  const FIRST := Analysis("R1", "S1", "first run")
  const SECOND := Analysis("R2", "S2", "second run")

  /** At no point do two runs of one worker exist. */
  ghost predicate NeverTwoRuns(history: seq<Happening>) {
    OneRunPerWorker(WorldAfter(INIT, history)) && (history != [] ==> NeverTwoRuns(history[..|history| - 1]))
  }

  /** A history, the clock after it and the world it leads to. */
  ghost predicate Leads(history: seq<Happening>, at: Time, s: World) {
    Possible(C, 0.0, INIT, history) && ClockAfter(0.0, history) == at && WorldAfter(INIT, history) == s
  }

  /** The same history with one more step; `alone` says that no worker has had two runs. */
  lemma Then(history: seq<Happening>, was: Time, at: Time, a: Action, s: World, alone: bool)
    returns (longer: seq<Happening>, s': World)
    requires Leads(history, was, s) && was <= at && Enabled(C, at, s, a)
    requires alone ==> NeverTwoRuns(history) && OneRunPerWorker(After(at, s, a))
    ensures s' == After(at, s, a) && Leads(longer, at, s')
    ensures alone ==> NeverTwoRuns(longer)
  {
    longer, s' := history + [Happening(at, a)], After(at, s, a);
    assert longer[..|longer| - 1] == history;
  }

  /** A handler's step, stated with the world it leads to. */
  lemma Goes(history: seq<Happening>, at: Time, id: HandlerId, e: Effect, pc: Pc, s: World, alone: bool)
    returns (longer: seq<Happening>, s': World)
    requires Leads(history, at, s) && id in s.handlers
    requires HandlerStep(C, at, s.shared, s.handlers[id], e, Goto(s.handlers[id], pc))
    requires Running(s.handlers[id].(pc := pc)) ==>
               Running(s.handlers[id]) || forall other :: other in s.handlers && Running(s.handlers[other]) ==>
                                            s.handlers[other].worker != s.handlers[id].worker || !alone
    requires alone ==> NeverTwoRuns(history)
    ensures s' == World(Perform(at, s.shared, e), s.handlers[id := s.handlers[id].(pc := pc)]) && Leads(longer, at, s')
    ensures alone ==> NeverTwoRuns(longer)
  {
    longer, s' := Then(history, at, at, Handle(id, e, Goto(s.handlers[id], pc)), s, alone);
  }

  /** Something in the environment, which starts no run. */
  lemma Happens(history: seq<Happening>, at: Time, e: Effect, s: World, alone: bool)
    returns (longer: seq<Happening>, s': World)
    requires Leads(history, at, s) && Environment(s.shared, e)
    requires alone ==> NeverTwoRuns(history)
    ensures s' == World(Perform(at, s.shared, e), s.handlers) && Leads(longer, at, s')
    ensures alone ==> NeverTwoRuns(longer)
  {
    longer, s' := Then(history, at, at, Env(e), s, alone);
  }

  lemma Delivered(history: seq<Happening>, was: Time, at: Time, id: HandlerId, w: WorkerId, s: World, alone: bool)
    returns (longer: seq<Happening>, s': World)
    requires Leads(history, was, s) && was <= at && id !in s.handlers && 1 in s.shared.stream
    requires alone ==> NeverTwoRuns(history)
    ensures s' == World(s.shared, s.handlers[id := Handler(w, 1, Claiming)]) && Leads(longer, at, s')
    ensures alone ==> NeverTwoRuns(longer)
  {
    longer, s' := Then(history, was, at, Deliver(id, w, 1), s, alone);
  }

  // --------------------------------------------------------------- the rows

  /** The row as the first claim of worker 7 leaves it. */
  function ClaimedOnce(): Row {
    NewRow("EX-1").(status := Processing, workerId := Some(W), lease := Some(30.0), heartbeatAt := Some(0.0),
                    startedAt := Some(0.0), attemptCount := 1)
  }

  /** The row as a second claim at 31.0 leaves it. */
  function ClaimedAgain(w: WorkerId): Row {
    ClaimedOnce().(workerId := Some(w), lease := Some(61.0), heartbeatAt := Some(31.0), attemptCount := 2)
  }

  /** Two runs, of worker 7 and of worker `w`, both of which read the row before either had an analysis. */
  function BothLoaded(w: WorkerId): World {
    World(INIT.shared.(row := Some(ClaimedAgain(w)), claims := 2, stream := {1}, nextSequence := 2, stored := true,
                       publisherAcked := true),
          map[0 := Handler(W, 1, Gathering(ClaimedOnce())), 1 := Handler(w, 1, Gathering(ClaimedAgain(w)))])
  }

  // --------------------------------------------------------------- the runs

  /** A redelivery reaches worker `w`, which claims `before` as `claimed` and loads it. */
  lemma RunLoads(history: seq<Happening>, s: World, was: Time, at: Time, id: HandlerId, w: WorkerId, before: Row, claimed: Row,
                 alone: bool)
    returns (longer: seq<Happening>, s': World)
    requires Leads(history, was, s) && was <= at && id !in s.handlers && 1 in s.shared.stream
    requires s.shared.row == Some(before) && ClaimRow(before, w, at, 30.0) == Some(claimed)
    requires WriteBackComplete(claimed) == Ok(false)
    requires alone ==> NeverTwoRuns(history) && forall other :: other in s.handlers ==> s.handlers[other].worker != w
    ensures s' == World(s.shared.(row := Some(claimed), claims := s.shared.claims + 1),
                        s.handlers[id := Handler(w, 1, Gathering(claimed))])
    ensures Leads(longer, at, s')
    ensures alone ==> NeverTwoRuns(longer)
  {
    hide Leads, NeverTwoRuns, Befalls, OneRunPerWorker;
    longer, s' := Delivered(history, was, at, id, w, s, alone);
    longer, s' := Goes(longer, at, id, RowEffect(Claim(w, 30.0), false), Loading, s', alone);
    longer, s' := Goes(longer, at, id, Nothing, Gathering(claimed), s', alone);
  }

  lemma BothRunsLoad(w: WorkerId, alone: bool) returns (history: seq<Happening>)
    requires alone ==> w != W
    ensures Leads(history, 31.0, BothLoaded(w))
    ensures alone ==> NeverTwoRuns(history)
  {
    var s := INIT;
    history, s := Happens([], 0.0, StoreMessage(true), s, alone);
    history, s := RunLoads(history, s, 0.0, 0.0, 0, W, NewRow("EX-1"), ClaimedOnce(), alone);
    history, s := RunLoads(history, s, 0.0, 31.0, 1, w, ClaimedOnce(), ClaimedAgain(w), alone);
    assert s.shared == BothLoaded(w).shared;
    assert s.handlers == BothLoaded(w).handlers;
  }

  /** A run that thinks the analysis is still to be made. */
  ghost predicate Unanalysed(h: Handler, w: WorkerId) {
    && h.worker == w && h.pc.Gathering?
    && h.pc.state.analysis.None? && h.pc.state.analysisPersistedAt.None? && h.pc.state.codesOutcome.None?
  }

  /** Such a run, while its worker owns the row, fetches `version` and persists an analysis. */
  lemma RunPersists(history: seq<Happening>, s: World, id: HandlerId, w: WorkerId, version: int, a: Analysis, alone: bool)
    returns (longer: seq<Happening>, s': World)
    requires Leads(history, 31.0, s) && id in s.handlers && Unanalysed(s.handlers[id], w)
    requires s.shared.row.Some? && Owned(s.shared.row.value, w)
    requires alone ==> NeverTwoRuns(history)
    ensures Leads(longer, 31.0, s')
    ensures alone ==> NeverTwoRuns(longer)
    ensures s'.handlers == s.handlers[id := s.handlers[id].(pc := WritingCodes(s.handlers[id].pc.state, version, a))]
    ensures s'.shared == s.shared.(row := Some(WithAnalysis(s.shared.row.value, version, a)),
                                   persisted := s.shared.persisted + [Checkpoint(Some(a), Some(version))])
  {
    hide Leads, NeverTwoRuns, Befalls, OneRunPerWorker;
    var state := s.handlers[id].pc.state;
    assert PlanAnalysis(state) == Analyze;
    longer, s' := Goes(history, 31.0, id, Nothing, Persisting(state, version, a), s, alone);
    longer, s' := Goes(longer, 31.0, id, RowEffect(Persist(w, Checkpoint(Some(a), Some(version))), false),
                       WritingCodes(state, version, a), s', alone);
  }

  function WithAnalysis(row: Row, version: int, a: Analysis): Row {
    row.(analysis := Some(Checkpoint(Some(a), Some(version))), analysisPersistedAt := Some(31.0))
  }

  /** And then sends the codes, which the target applies. */
  lemma RunWrites(history: seq<Happening>, s: World, id: HandlerId, w: WorkerId, version: int, a: Analysis, alone: bool)
    returns (longer: seq<Happening>, s': World)
    requires Leads(history, 31.0, s) && id in s.handlers && Unanalysed(s.handlers[id], w)
    requires s.shared.row.Some? && Owned(s.shared.row.value, w)
    requires s.shared.targetVersion == version
    requires alone ==> NeverTwoRuns(history)
    ensures Leads(longer, 31.0, s')
    ensures alone ==> NeverTwoRuns(longer)
    ensures s'.handlers == s.handlers[id := s.handlers[id].(pc := RecordingCodes(s.handlers[id].pc.state, Written))]
    ensures s'.shared.row == Some(WithAnalysis(s.shared.row.value, version, a))
    ensures s'.shared.stream == s.shared.stream
    ensures s'.shared.targetVersion == version + 1
    ensures s'.shared.persisted == s.shared.persisted + [Checkpoint(Some(a), Some(version))]
    ensures s'.shared.applied == s.shared.applied + [CodesWrite(version, a.reasonCode, a.resolutionCode)]
  {
    hide Leads, NeverTwoRuns, Befalls, OneRunPerWorker;
    var state := s.handlers[id].pc.state;
    var request := CodesWrite(version, a.reasonCode, a.resolutionCode);
    longer, s' := RunPersists(history, s, id, w, version, a, alone);
    assert CompletedCheckpoint(state.codesOutcome, CODES_DONE) == Ok(None);
    longer, s' := Goes(longer, 31.0, id, SendCodes(request), RecordingCodes(state, Written), s', alone);
    longer, s' := Happens(longer, 31.0, TargetProcess(request), s', alone);
  }

  /** Two analyses are persisted, and the target is changed twice, differently. */
  ghost predicate AppliedTwice(sh: Shared) {
    |sh.persisted| == 2 && |sh.applied| == 2 && sh.applied[0] != sh.applied[1]
  }

  /** Two runs of one worker: all the history violates is the single live run. */
  lemma WithoutSingleLiveRunCodesApplyTwice()
    ensures exists history ::
              && Possible(C, 0.0, INIT, history)
              && !SingleLiveRun(INIT, history)
              && AppliedTwice(WorldAfter(INIT, history).shared)
  {
    var history := BothRunsLoad(W, false);
    var s := BothLoaded(W);
    history, s := RunWrites(history, s, 0, W, 1, FIRST, false);
    history, s := RunWrites(history, s, 1, W, 2, SECOND, false);
    if SingleLiveRun(INIT, history) {
      CodesAppliedAtMostOnce(C, 0.0, "EX-1", 1, history);
    }
  }

  // -------------------------------------------------------- the lost answer

  /** Run 1 is interrupted and gives the row back. */
  lemma RunReleases(history: seq<Happening>, s: World) returns (longer: seq<Happening>, s': World)
    requires Leads(history, 31.0, s) && NeverTwoRuns(history)
    requires 1 in s.handlers && s.handlers[1].worker == V && s.handlers[1].pc.RecordingCodes?
    requires s.shared.row.Some? && Owned(s.shared.row.value, V) && s.shared.row.value.attemptCount == 2
    ensures Leads(longer, 31.0, s') && NeverTwoRuns(longer)
    ensures s'.handlers == s.handlers[1 := s.handlers[1].(pc := Naking)]
    ensures s'.shared == s.shared.(row := s'.shared.row)
    ensures s'.shared.row.Some? && s'.shared.row.value.status == Queued
  {
    hide Leads, NeverTwoRuns, OneRunPerWorker;
    longer, s' := Goes(history, 31.0, 1, Nothing, InterruptReading, s, true);
    longer, s' := Goes(longer, 31.0, 1, Nothing, InterruptApplying(2), s', true);
    longer, s' := Goes(longer, 31.0, 1, RowEffect(Fail(ReleaseFor(V, 2)), false), Naking, s', true);
  }

  /** Worker 7 claims the queued row, and the answer to the commit is lost: the message is naked, no run starts. */
  lemma ClaimAnswerLost(history: seq<Happening>, s: World) returns (longer: seq<Happening>, s': World)
    requires Leads(history, 31.0, s) && NeverTwoRuns(history) && 2 !in s.handlers && 1 in s.shared.stream
    requires s.shared.row.Some? && s.shared.row.value.status == Queued
    ensures Leads(longer, 31.0, s') && NeverTwoRuns(longer)
    ensures s'.handlers == s.handlers[2 := Handler(W, 1, Naking)]
    ensures s'.shared == s.shared.(row := s'.shared.row, claims := s.shared.claims + 1)
    ensures s'.shared.row.Some? && Owned(s'.shared.row.value, W)
  {
    hide Leads, NeverTwoRuns, OneRunPerWorker;
    longer, s' := Delivered(history, 31.0, 31.0, 2, W, s, true);
    longer, s' := Goes(longer, 31.0, 2, RowEffect(Claim(W, 30.0), false), Naking, s', true);
  }

  /**
    At most one run per worker at every point is not enough: here no worker
    ever has two, and yet two analyses are persisted and the target is changed
    twice.  Worker 8 takes worker 7's expired lease, persists, writes and is
    interrupted; a delivery to worker 7 commits its claim and loses the answer;
    and worker 7's old run finds itself the owner again.
  */
  lemma LostClaimAnswerAppliesTwice()
    ensures exists history ::
              && Possible(C, 0.0, INIT, history)
              && NeverTwoRuns(history)
              && AppliedTwice(WorldAfter(INIT, history).shared)
  {
    var history := BothRunsLoad(V, true);
    var s := BothLoaded(V);
    history, s := RunWrites(history, s, 1, V, 1, FIRST, true);
    history, s := RunReleases(history, s);
    history, s := ClaimAnswerLost(history, s);
    history, s := RunWrites(history, s, 0, W, 2, SECOND, true);
  }
}
