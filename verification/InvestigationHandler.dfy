/**
  The handling of one delivery as the program it is:
  `_handle`, `_handle_unclaimed`, `_record_failure` of
  worker/adapters/nats/handler.py, `execute` and its steps of
  worker/application/investigate_exception.py, and `execute` and
  `release_interrupted` of
  worker/application/record_investigation_failure.py.

  Every statement is a step of module Protocol, and at every await any number
  of other actors' steps may come first; so whatever Delivery and
  CheckpointOrder prove of all histories holds of this program.
*/
module InvestigationHandler {
  import opened Prelude
  import opened Rows
  import opened Checkpoints
  import opened Protocol
  import opened Delivery
  import opened RunFate

  /** What the handler last told the broker about the message. */
  datatype Disposition = Acked | Termed | Naked(delay: Time, cause: NakCause)

  /** Why a message is given back. */
  datatype NakCause = DatabaseUnavailable | NotOwner | RunFailed(attempts: nat) | LeaseLive

  datatype RunResult = Succeeded | OwnershipLost | Raised(failure: Failure)

  datatype FailureOutcome = Retry(attempts: nat) | TerminallyFailed | LostOwnership | NotRecorded

  /** A checkpoint update writes its own columns only. */
  predicate KeptBy(u: RowUpdate, row: Row, after: Row) {
    && after.attemptCount == row.attemptCount
    && (!u.Persist? ==> after.analysis == row.analysis && after.analysisPersistedAt == row.analysisPersistedAt)
    && (!(u.RecordStep? && u.step == Codes) ==> after.codesOutcome == row.codesOutcome)
    && (!(u.RecordStep? && u.step == Comment) ==> after.commentOutcome == row.commentOutcome)
  }

  /** A checkpoint update leaves the row with its owner. */
  lemma StaysOwned(now: Time, sh: Shared, u: RowUpdate, worker: WorkerId)
    requires (u.Persist? || u.RecordStep? || u.Complete?) && Speaker(u) == Some(worker)
    ensures var sh' := PerformUpdate(now, sh, u, false);
            && sh' == Perform(now, sh, RowEffect(u, false))
            && sh'.sent == sh.sent && sh'.stream == sh.stream
            && (!Matches(now, sh, u) ==> sh' == sh)
            && (Matches(now, sh, u) ==> sh'.row.Some? && KeptBy(u, sh.row.value, sh'.row.value))
            && (Matches(now, sh, u) ==>
                  && sh'.row.Some?
                  && if u.Complete? then sh'.row.value.status == Completed else Owned(sh'.row.value, worker))
            && (sh.row.Some? && Owned(sh.row.value, worker) ==> Matches(now, sh, u))
  {
  }

  /** The request a run's codes write is: the checkpoint's version, the analysis's codes. */
  function RequestOf(pc: Pc): CodesWrite
    requires pc.WritingCodes?
  {
    CodesWrite(CheckpointVersion(pc.state, pc.fetched), pc.analysis.reasonCode, pc.analysis.resolutionCode)
  }

  /** Where recording `outcome` leads a run. */
  function AfterRecording(step: WriteBackStep, outcome: Outcome, state: Row): Pc {
    match step
    case Codes => AfterRecord(outcome, CODES_DONE, WritingComment(state))
    case Comment => AfterRecord(outcome, COMMENT_DONE, Completing)
  }

  predicate AtRecording(pc: Pc, step: WriteBackStep, outcome: Outcome) {
    match step
    case Codes => pc.RecordingCodes? && pc.codesResult == outcome
    case Comment => pc.RecordingComment? && pc.commentResult == outcome
  }

  /** The steps that recording an outcome can be. */
  lemma RecordingSteps(c: Config, now: Time, sh: Shared, h: Handler, step: WriteBackStep, outcome: Outcome)
    requires AtRecording(h.pc, step, outcome)
    ensures var u := RecordStep(h.worker, step, outcome);
            var e := RowEffect(u, false);
            if Matches(now, sh, u)
            then && HandlerStep(c, now, sh, h, e, Goto(h, AfterRecording(step, outcome, h.pc.state)))
                 && HandlerStep(c, now, sh, h, e, Goto(h, FailReading(Failure("platform_database_unavailable", false))))
            else HandlerStep(c, now, sh, h, e, Goto(h, Naking))
  {
    hide UpdateRow;
  }

  /** The row holds `outcome` as the result of `step`. */
  predicate Recorded(sh: Shared, step: WriteBackStep, outcome: Outcome) {
    && sh.row.Some?
    && (match step
        case Codes => sh.row.value.codesOutcome
        case Comment => sh.row.value.commentOutcome) == Some(Recognised(outcome))
  }

  predicate Persisted(sh: Shared, checkpoint: Checkpoint) {
    sh.row.Some? && sh.row.value.analysis == Some(checkpoint) && sh.row.value.analysisPersistedAt.Some?
  }

  /** What a recorded failure makes of the row, and when its fence holds. */
  lemma FailureApplies(now: Time, sh: Shared, m: FailureMutation)
    ensures var sh' := Perform(now, sh, RowEffect(RowUpdate.Fail(m), true));
            && sh'.sent == sh.sent
            && (!Matches(now, sh, RowUpdate.Fail(m)) ==> sh' == sh)
            && (Matches(now, sh, RowUpdate.Fail(m)) ==>
                  && sh'.row.Some? && sh'.row.value.status == m.target
                  && sh'.row.value.attemptCount == m.expectedAttempt
                  && sh'.row.value.errorCode == Some(m.errorCode)
                  && SameCheckpoints(sh.row.value, sh'.row.value))
            && sh'.stream == sh.stream
            && (sh.row.Some? && Owned(sh.row.value, m.workerId) && sh.row.value.attemptCount == m.expectedAttempt ==>
                  Matches(now, sh, RowUpdate.Fail(m)))
  {
  }

  /** A claim matches a row that can be claimed, and takes it for one more attempt. */
  lemma ClaimTakes(now: Time, sh: Shared, worker: WorkerId, leaseSeconds: Time)
    ensures var u := RowUpdate.Claim(worker, leaseSeconds);
            var sh' := Perform(now, sh, RowEffect(u, false));
            && (Matches(now, sh, u) <==> sh.row.Some? && Claimable(sh.row.value, now))
            && sh'.stream == sh.stream && sh'.sent == sh.sent
            && (Matches(now, sh, u) ==>
                  && sh'.row.Some? && Owned(sh'.row.value, worker)
                  && SameCheckpoints(sh.row.value.(attemptCount := sh.row.value.attemptCount + 1), sh'.row.value))
            && (!Matches(now, sh, u) ==> sh' == sh)
  {
  }

  /** The steps that claiming can be. */
  lemma ClaimSteps(c: Config, now: Time, sh: Shared, h: Handler)
    requires h.pc == Claiming
    ensures var claim := RowEffect(RowUpdate.Claim(h.worker, c.leaseSeconds), false);
            && HandlerStep(c, now, sh, h, Nothing, Goto(h, Naking))
            && HandlerStep(c, now, sh, h, claim, Goto(h, Naking))
            && HandlerStep(c, now, sh, h, claim, Goto(h, if Matches(now, sh, claim.update) then Loading else Looking))
  {
    hide UpdateRow;
  }

  /** No effect unsends a request. */
  lemma SentGrows(now: Time, sh: Shared, e: Effect)
    ensures sh.sent <= Perform(now, sh, e).sent
  {
  }

  /** What a matching checkpoint update has written. */
  lemma UpdateWrites(now: Time, sh: Shared, u: RowUpdate)
    requires Matches(now, sh, u)
    ensures u.Persist? ==> Persisted(PerformUpdate(now, sh, u, false), u.checkpoint)
    ensures u.RecordStep? ==> Recorded(PerformUpdate(now, sh, u, false), u.step, u.outcome)
  {
  }

  class WorkerProcess {
    const config: Config
    const retryDelays: seq<Time>
    const calm: bool      // the database and the broker work, and nobody else acts while this process waits
    const answers: Answers  // what the run is answered then
    var world: World
    var now: Time

    ghost predicate Valid()
      reads this
    {
      ValidConfig(config) && WorldOk(config, now, world) && retryDelays != []
    }

    ghost predicate At(id: HandlerId, pc: Pc)
      reads this
    {
      Valid() && id in world.handlers && world.handlers[id].pc == pc
    }

    /** The same delivery; and what was sent to the target stays sent. */
    twostate predicate SameDelivery(id: HandlerId)
      reads this
    {
      && id in old(world).handlers && id in world.handlers && world.handlers[id].sequence == old(world).handlers[id].sequence
      && old(world).shared.sent <= world.shared.sent
    }

    predicate Stands(status: Status)
      reads this
    {
      world.shared.row.Some? && world.shared.row.value.status == status
    }

    /** The row as a calm day leaves it: nobody else touches it, and beats move the lease only. */
    twostate predicate OnlyBeats()
      reads this
    {
      Quiet() && SameCheckpoints(old(world).shared.row.value, world.shared.row.value)
    }

    /** The row is still there for the same attempt, and the stream and the clock stood still. */
    twostate predicate Quiet()
      reads this
    {
      && old(world).shared.row.Some? && world.shared.row.Some?
      && world.shared.row.value.attemptCount == old(world).shared.row.value.attemptCount
      && world.shared.stream == old(world).shared.stream && now == old(now)
    }

    twostate predicate SameAnalysis()
      reads this
      requires Quiet()
    {
      && world.shared.row.value.analysis == old(world).shared.row.value.analysis
      && world.shared.row.value.analysisPersistedAt == old(world).shared.row.value.analysisPersistedAt
    }

    twostate predicate SameOutcome(step: WriteBackStep)
      reads this
      requires Quiet()
    {
      match step
      case Codes => world.shared.row.value.codesOutcome == old(world).shared.row.value.codesOutcome
      case Comment => world.shared.row.value.commentOutcome == old(world).shared.row.value.commentOutcome
    }

    /** On a calm day the row stays this handler's from its claim on. */
    ghost predicate Mine(id: HandlerId)
      reads this
      requires id in world.handlers
    {
      calm ==> world.shared.row.Some? && Owned(world.shared.row.value, world.handlers[id].worker)
    }

    constructor (config: Config, retryDelays: seq<Time>, calm: bool, answers: Answers, world: World, now: Time)
      requires ValidConfig(config) && WorldOk(config, now, world) && retryDelays != []
      ensures Valid() && this.world == world && this.now == now && this.config == config
      ensures this.calm == calm && this.answers == answers && this.retryDelays == retryDelays
    {
      this.config, this.retryDelays, this.calm, this.answers := config, retryDelays, calm, answers;
      this.world, this.now := world, now;
    }

    /** One atomic step of the protocol. */
    method Do(a: Action)
      requires Valid() && Enabled(config, now, world, a)
      modifies this`world
      ensures Valid() && world == After(now, old(world), a)
      ensures Settled(old(world).shared) ==> Settled(world.shared)
      ensures old(world).shared.sent <= world.shared.sent
    {
      StepKeepsWorldOk(config, now, world, a);
      SentGrows(now, world.shared, if a.Handle? then a.effect else if a.Env? then a.happening else Nothing);
      world := After(now, world, a);
    }

    /** A step of handler `id` that has effect `e` and leads to `pc`. */
    method Step(id: HandlerId, e: Effect, pc: Pc)
      requires Valid() && id in world.handlers
      requires HandlerStep(config, now, world.shared, world.handlers[id], e, Goto(world.handlers[id], pc))
      modifies this`world
      ensures At(id, pc) && world.handlers[id] == old(world.handlers[id]).(pc := pc)
      ensures world.shared == Perform(now, old(world.shared), e)
      ensures old(world).shared.sent <= world.shared.sent
    {
      Do(Handle(id, e, Goto(world.handlers[id], pc)));
    }

    predicate SomebodyElses(id: HandlerId, a: Action) {
      match a
      case Deliver(other, _, _) => other != id
      case Handle(other, _, _) => other != id
      case Env(_) => true
    }

    /** An await: time passes and everybody else does whatever they can. */
    method Await(id: HandlerId)
      requires Valid() && id in world.handlers
      modifies this
      ensures Valid() && id in world.handlers && world.handlers[id] == old(world.handlers[id])
      ensures Settled(old(world).shared) ==> Settled(world.shared)
      ensures old(world).shared.sent <= world.shared.sent
      ensures calm ==> world == old(world) && now == old(now)
    {
      var steps: nat := *;
      while !calm && steps > 0
        invariant Valid() && id in world.handlers && world.handlers[id] == old(world.handlers[id])
        invariant calm ==> world == old(world) && now == old(now)
        invariant old(world).shared.sent <= world.shared.sent
        invariant Settled(old(world).shared) ==> Settled(world.shared)
        modifies this
      {
        var later: Time := *;
        if later >= now {
          LaterWorldOk(config, now, later, world);
          now := later;
        }
        var a: Action := *;
        if SomebodyElses(id, a) && Enabled(config, now, world, a) {
          Do(a);
        }
        steps := steps - 1;
      }
    }

    /** An await inside the run: its heartbeat may extend the lease, or find it gone and end the run. */
    method AwaitRunning(id: HandlerId) returns (lost: bool)
      requires Valid() && id in world.handlers && Running(world.handlers[id]) && Mine(id)
      modifies this
      ensures SameDelivery(id)
      ensures Valid() && id in world.handlers && world.handlers[id].worker == old(world.handlers[id].worker)
      ensures Mine(id)
      ensures lost ==> At(id, Naking) && !calm
      ensures !lost ==> world.handlers[id] == old(world.handlers[id])
      ensures calm ==> OnlyBeats() && world.shared.sent == old(world).shared.sent
    {
      var h := world.handlers[id];
      var beats: nat := *;
      lost := false;
      while beats > 0 && !lost
        invariant Valid() && id in world.handlers && Mine(id) && !(lost && calm)
        invariant old(world).shared.sent <= world.shared.sent
        invariant world.handlers[id] == if lost then h.(pc := Naking) else h
        invariant calm ==> OnlyBeats() && world.shared.sent == old(world).shared.sent
        modifies this
        decreases beats
      {
        Await(id);
        var extension := Extend(h.worker, config.leaseSeconds);
        var reached: bool := *;
        if reached {
          if Matches(now, world.shared, extension) {
            Step(id, RowEffect(extension, false), h.pc);
          } else {
            Step(id, RowEffect(extension, false), Naking);
            lost := true;
          }
        }
        beats := beats - 1;
      }
      if !lost {
        Await(id);
      }
    }

    // ------------------------------------------------- InvestigateException

    ghost predicate Ended(id: HandlerId, r: RunResult)
      reads this
    {
      && Valid() && id in world.handlers
      && (match r
          case Succeeded => world.handlers[id].pc == Acking
          case OwnershipLost => world.handlers[id].pc == Naking && !calm
          case Raised(f) => world.handlers[id].pc == FailReading(f) && Mine(id))
    }

    /** None: the run goes on at the next step; Some: it has ended. */
    ghost predicate Continues(id: HandlerId, r: Option<RunResult>)
      reads this
    {
      if r.None? then Valid() && id in world.handlers && Running(world.handlers[id]) && Mine(id)
      else Ended(id, r.value) && !r.value.Succeeded?
    }

    /** Anything a call can raise on the way. */
    method Raise(id: HandlerId, f: Failure) returns (r: Option<RunResult>)
      requires Valid() && id in world.handlers && Running(world.handlers[id]) && Mine(id)
      modifies this`world
      ensures SameDelivery(id)
      ensures r == Some(Raised(f)) && Ended(id, Raised(f))
      ensures world.shared == old(world).shared
    {
      Step(id, Nothing, FailReading(f));
      r := Some(Raised(f));
    }

    predicate CanLeadTo(id: HandlerId, u: RowUpdate, pc: Pc)
      reads this
      requires id in world.handlers
    {
      HandlerStep(config, now, world.shared, world.handlers[id], RowEffect(u, false), Goto(world.handlers[id], pc))
    }

    /** `_require_update` around a conditional update of the run, and its commit. */
    method Commit(id: HandlerId, u: RowUpdate, next: Pc) returns (r: Option<RunResult>)
      requires Valid() && id in world.handlers && Running(world.handlers[id]) && Mine(id)
      requires u.Persist? || u.RecordStep? || u.Complete?
      requires Speaker(u) == Some(world.handlers[id].worker)
      requires Matches(now, world.shared, u) ==>
                 && CanLeadTo(id, u, next)
                 && CanLeadTo(id, u, FailReading(Failure("platform_database_unavailable", false)))
      requires !Matches(now, world.shared, u) ==> CanLeadTo(id, u, Naking)
      modifies this`world
      ensures SameDelivery(id)
      ensures r.None? ==> At(id, next) && Matches(now, old(world.shared), u) && (u.Complete? || Mine(id))
      ensures r.None? && u.Complete? ==> Stands(Completed)
      ensures r.None? && u.Persist? ==> Persisted(world.shared, u.checkpoint)
      ensures r.None? && u.RecordStep? ==> Recorded(world.shared, u.step, u.outcome)
      ensures r.Some? ==> Ended(id, r.value) && !r.value.Succeeded?
      ensures r == Some(OwnershipLost) <==> !Matches(now, old(world.shared), u)
      ensures calm ==> r.None?
      ensures r.None? ==> world.shared.row.Some? && KeptBy(u, old(world.shared.row.value), world.shared.row.value)
      ensures world.shared == PerformUpdate(now, old(world.shared), u, false)
      ensures world.shared.sent == old(world.shared.sent) && world.shared.stream == old(world.shared.stream)
    {
      hide WorldOk, HandlerStep, Perform, PerformUpdate, UpdateRow;
      StaysOwned(now, world.shared, u, world.handlers[id].worker);
      if Matches(now, world.shared, u) {
        UpdateWrites(now, world.shared, u);
        var answered: bool := *;
        if calm || answered {
          Step(id, RowEffect(u, false), next);
          r := None;
        } else {
          Step(id, RowEffect(u, false), FailReading(Failure("platform_database_unavailable", false)));
          r := Some(Raised(Failure("platform_database_unavailable", false)));
        }
      } else {
        Step(id, RowEffect(u, false), Naking);
        r := Some(OwnershipLost);
      }
    }

    /** `_load_owned` and the early exit of `execute`. */
    method Load(id: HandlerId) returns (r: Option<RunResult>)
      requires At(id, Loading) && Mine(id)
      modifies this`world
      ensures SameDelivery(id)
      ensures Continues(id, r)
      ensures world.shared == old(world).shared
      ensures r == Some(OwnershipLost) <==>
                world.shared.row.Some? && world.shared.row.value.workerId != Some(world.handlers[id].worker)
      ensures r.None? ==> world.shared.row.Some? && world.shared.row.value.workerId == Some(world.handlers[id].worker)
      ensures r.None? ==> if Done(world.shared.row.value.commentOutcome, COMMENT_DONE) && Done(world.shared.row.value.codesOutcome, CODES_DONE)
                          then world.handlers[id].pc == Completing
                          else world.handlers[id].pc == Gathering(world.shared.row.value)
      ensures world.shared.row.None? ==> r == Some(Raised(Failure("investigation_not_found", true)))
      ensures world.shared.row.Some? && world.shared.row.value.workerId == Some(world.handlers[id].worker) ==>
                var obstacle := LoadObstacle(world.shared.row.value);
                && r == (if obstacle.Some? then Some(Raised(obstacle.value)) else None)
                && (obstacle.None? ==> (world.handlers[id].pc == Completing <==> WrittenBack(world.shared.row.value)))
    {
      if world.shared.row.Some? {
        WriteBackCompleteMeansBothDone(world.shared.row.value);
        if world.shared.row.value.workerId == Some(world.handlers[id].worker) {
          ObstaclesAreRead(world.shared.row.value, world.handlers[id].worker);
        }
      }
      var row := world.shared.row;
      var next := AfterLoad(row, world.handlers[id].worker);
      Step(id, Nothing, next);
      match next {
        case Naking => r := Some(OwnershipLost);
        case FailReading(f) => r := Some(Raised(f));
        case _ => r := None;
      }
    }

    /** The new analysis, committed with the version it was fetched at. */
    method PersistAnalysis(id: HandlerId) returns (r: Option<RunResult>)
      requires Valid() && id in world.handlers && world.handlers[id].pc.Persisting? && Mine(id)
      modifies this
      ensures SameDelivery(id)
      ensures Continues(id, r)
      ensures r.None? ==>
                var before, pc := old(world).handlers[id].pc, world.handlers[id].pc;
                && pc == WritingCodes(before.state, before.fetched, before.analysis)
                && Persisted(world.shared, Checkpoint(Some(before.analysis), Some(before.fetched)))
      ensures calm ==> r.None? && Quiet() && SameOutcome(Codes) && SameOutcome(Comment)
      ensures calm ==> world.shared.sent == old(world).shared.sent
    {
      hide WorldOk, PerformUpdate, UpdateRow;
      var lost := AwaitRunning(id);
      if lost {
        return Some(OwnershipLost);
      }
      var Persisting(state, fetched, analysis) := world.handlers[id].pc;
      r := Commit(id, Persist(world.handlers[id].worker, Checkpoint(Some(analysis), Some(fetched))),
                  WritingCodes(state, fetched, analysis));
    }

    /** The control context, the source data, and the analysis: the persisted one or a new one. */
    method ResolveAnalysis(id: HandlerId) returns (r: Option<RunResult>)
      requires Valid() && id in world.handlers && world.handlers[id].pc.Gathering? && Mine(id)
      requires calm ==> SameCheckpoints(world.handlers[id].pc.state, world.shared.row.value)
      modifies this
      ensures SameDelivery(id)
      ensures Continues(id, r)
      ensures r.None? ==>
                var pc, plan := world.handlers[id].pc, PlanAnalysis(old(world).handlers[id].pc.state);
                && pc.WritingCodes? && pc.state == old(world).handlers[id].pc.state && !plan.Reject?
                && (plan.Reuse? ==> pc.analysis == plan.analysis)
                && (plan.Analyze? ==> Persisted(world.shared, Checkpoint(Some(pc.analysis), Some(pc.fetched))))
      ensures calm ==>
                var obstacle := AnalysisObstacle(answers, old(world).handlers[id].pc.state);
                r == if obstacle.Some? then Some(Raised(obstacle.value)) else None
      ensures calm ==> Quiet() && SameOutcome(Codes) && SameOutcome(Comment) && world.shared.sent == old(world).shared.sent
      ensures calm ==>
                var row, after := old(world).shared.row.value, world.shared.row.value;
                AnalysisStep(ProducesAnalysis(answers, row), answers, row, after)
      ensures calm && r.None? ==>
                var state, pc := old(world).handlers[id].pc.state, world.handlers[id].pc;
                && pc.fetched == answers.gathered.value
                && pc.analysis == if ReadableAnalysis(state) then state.analysis.value.analysis.value else answers.analysed.value
    {
      hide WorldOk;
      var state := world.handlers[id].pc.state;
      var lost := AwaitRunning(id);
      if lost {
        return Some(OwnershipLost);
      }
      var gathered := answers.gathered;
      if !calm {
        gathered := *;
      }
      if gathered.Err? {
        r := Raise(id, gathered.error);
        return;
      }
      match PlanAnalysis(state) {
        case Reject(c) =>
          Step(id, Nothing, FailReading(Failure(c, true)));
          return Some(Raised(Failure(c, true)));
        case Reuse(a) =>
          Step(id, Nothing, WritingCodes(state, gathered.value, a));
          return None;
        case Analyze =>
      }
      r := Analyse(id, gathered.value);
    }

    /** The analyst, the validation and the report store, and then the checkpoint. */
    method Analyse(id: HandlerId, fetched: int) returns (r: Option<RunResult>)
      requires Valid() && id in world.handlers && world.handlers[id].pc.Gathering? && Mine(id)
      requires PlanAnalysis(world.handlers[id].pc.state).Analyze?
      modifies this
      ensures SameDelivery(id)
      ensures Continues(id, r)
      ensures r.None? ==>
                var pc := world.handlers[id].pc;
                && pc.WritingCodes? && pc.state == old(world).handlers[id].pc.state && pc.fetched == fetched
                && Persisted(world.shared, Checkpoint(Some(pc.analysis), Some(fetched)))
      ensures calm ==> r == if answers.analysed.Err? then Some(Raised(answers.analysed.error)) else None
      ensures calm && r.None? ==> world.handlers[id].pc.analysis == answers.analysed.value
      ensures calm && r.Some? ==> world.shared == old(world).shared
      ensures calm ==> Quiet() && SameOutcome(Codes) && SameOutcome(Comment) && world.shared.sent == old(world).shared.sent
    {
      hide WorldOk;
      var state := world.handlers[id].pc.state;
      var analysed := answers.analysed;
      if !calm {
        analysed := *;
      }
      if analysed.Err? {
        r := Raise(id, analysed.error);
        return;
      }
      Step(id, Nothing, Persisting(state, fetched, analysed.value));
      r := PersistAnalysis(id);
    }

    /** The commit of an outcome, and the check that follows it. */
    method CommitOutcome(id: HandlerId, step: WriteBackStep, outcome: Outcome) returns (r: Option<RunResult>)
      requires Valid() && id in world.handlers && Mine(id)
      requires AtRecording(world.handlers[id].pc, step, outcome)
      modifies this`world
      ensures SameDelivery(id)
      ensures Continues(id, r)
      ensures r.None? ==> Recorded(world.shared, step, outcome)
      ensures r.None? ==> outcome in (match step case Codes => CODES_DONE case Comment => COMMENT_DONE)
      ensures r.None? ==> world.handlers[id].pc == AfterRecording(step, outcome, old(world).handlers[id].pc.state)
      ensures calm ==> Recorded(world.shared, step, outcome) && world.shared.sent == old(world).shared.sent
      ensures calm ==> Quiet() && SameAnalysis() && SameOutcome(if step.Codes? then Comment else Codes)
      ensures calm ==> r == if outcome == WriteFailed || (step.Comment? && outcome == SkippedVersionConflict)
                            then Some(Raised(Failure("write_back_rejected", true)))
                            else None
    {
      hide WorldOk, PerformUpdate, HandlerStep, Perform, Matches, Owned;
      var next := AfterRecording(step, outcome, world.handlers[id].pc.state);
      RecordingSteps(config, now, world.shared, world.handlers[id], step, outcome);
      r := Commit(id, RecordStep(world.handlers[id].worker, step, outcome), next);
      if r.None? && next.FailReading? {
        r := Some(Raised(next.failure));
      }
    }

    /** `_record_outcome`. */
    method RecordOutcome(id: HandlerId, step: WriteBackStep, outcome: Outcome) returns (r: Option<RunResult>)
      requires Valid() && id in world.handlers && Mine(id)
      requires AtRecording(world.handlers[id].pc, step, outcome)
      modifies this
      ensures SameDelivery(id)
      ensures Continues(id, r)
      ensures r.None? ==> Recorded(world.shared, step, outcome)
      ensures r.None? ==> outcome in (match step case Codes => CODES_DONE case Comment => COMMENT_DONE)
      ensures r.None? ==> match step
                          case Codes => world.handlers[id].pc == WritingComment(old(world).handlers[id].pc.state)
                          case Comment => world.handlers[id].pc == Completing
      ensures calm ==> Recorded(world.shared, step, outcome) && world.shared.sent == old(world).shared.sent
      ensures calm ==> Quiet() && SameAnalysis() && SameOutcome(if step.Codes? then Comment else Codes)
      ensures calm ==> r == if outcome == WriteFailed || (step.Comment? && outcome == SkippedVersionConflict)
                            then Some(Raised(Failure("write_back_rejected", true)))
                            else None
    {
      hide WorldOk, HandlerStep, Perform, PerformUpdate, Owned, Recorded, RowOk;
      var lost := AwaitRunning(id);
      if lost {
        return Some(OwnershipLost);
      }
      r := CommitOutcome(id, step, outcome);
    }

    /** The codes were done when the run loaded its row, or are recorded as done now. */
    predicate CodesDone(state: Row)
      reads this
    {
      || Done(state.codesOutcome, CODES_DONE)
      || (exists outcome :: outcome in CODES_DONE && Recorded(world.shared, Codes, outcome))
    }

    predicate CommentDone(state: Row)
      reads this
    {
      || Done(state.commentOutcome, COMMENT_DONE)
      || (exists outcome :: outcome in COMMENT_DONE && Recorded(world.shared, Comment, outcome))
    }

    /** The codes request itself, unless the write-back is disabled. */
    method CallTarget(id: HandlerId) returns (r: Option<RunResult>, outcome: Outcome)
      requires Valid() && id in world.handlers && world.handlers[id].pc.WritingCodes? && Mine(id)
      requires world.handlers[id].pc.state.codesOutcome.None?
      modifies this`world
      ensures SameDelivery(id)
      ensures r.Some? ==> Ended(id, r.value) && !r.value.Succeeded?
      ensures r.None? ==> At(id, RecordingCodes(old(world).handlers[id].pc.state, outcome)) && Mine(id)
      ensures r.None? && config.codesEnabled ==> RequestOf(old(world).handlers[id].pc) in world.shared.sent
      ensures world.shared == old(world).shared.(sent := world.shared.sent)
      ensures world.shared.sent == old(world).shared.sent + if config.codesEnabled then {RequestOf(old(world).handlers[id].pc)} else {}
      ensures calm ==> r == if config.codesEnabled && answers.codes.None?
                            then Some(Raised(Failure("ctc_write_back_unavailable", false)))
                            else None
      ensures calm && r.None? ==> outcome == if config.codesEnabled then answers.codes.value else SkippedDisabled
    {
      hide WorldOk;
      var state := world.handlers[id].pc.state;
      assert CompletedCheckpoint(state.codesOutcome, CODES_DONE) == Ok(None);
      r, outcome := None, SkippedDisabled;
      if config.codesEnabled {
        var request := RequestOf(world.handlers[id].pc);
        var answer := answers.codes;
        if !calm {
          answer := *;
        }
        if answer.None? {
          Step(id, SendCodes(request), FailReading(Failure("ctc_write_back_unavailable", false)));
          return Some(Raised(Failure("ctc_write_back_unavailable", false))), outcome;
        }
        outcome := answer.value;
        Step(id, SendCodes(request), RecordingCodes(state, outcome));
      } else {
        Step(id, Nothing, RecordingCodes(state, outcome));
      }
    }

    /** The codes outcome found in the loaded row. */
    method ReadCodes(id: HandlerId) returns (r: Option<RunResult>)
      requires Valid() && id in world.handlers && world.handlers[id].pc.WritingCodes? && Mine(id)
      requires world.handlers[id].pc.state.codesOutcome.Some?
      modifies this`world
      ensures SameDelivery(id)
      ensures Continues(id, r)
      ensures r.None? ==> world.handlers[id].pc == WritingComment(old(world).handlers[id].pc.state)
      ensures r.None? <==> Done(old(world).handlers[id].pc.state.codesOutcome, CODES_DONE)
      ensures var obstacle := CodesObstacle(config, answers, old(world).handlers[id].pc.state);
              r == if obstacle.Some? then Some(Raised(obstacle.value)) else None
      ensures world.shared == old(world).shared
    {
      hide WorldOk;
      var state := world.handlers[id].pc.state;
      match CompletedCheckpoint(state.codesOutcome, CODES_DONE) {
        case Err(code) =>
          Step(id, Nothing, FailReading(Failure(code, true)));
          r := Some(Raised(Failure(code, true)));
        case Ok(_) =>
          Step(id, Nothing, WritingComment(state));
          r := None;
      }
    }

    /** `_write_codes`: a recorded outcome is final, and a request carries the checkpoint's version. */
    method WriteCodes(id: HandlerId) returns (r: Option<RunResult>)
      requires Valid() && id in world.handlers && world.handlers[id].pc.WritingCodes? && Mine(id)
      requires calm ==> world.handlers[id].pc.state.codesOutcome == world.shared.row.value.codesOutcome
      modifies this
      ensures SameDelivery(id)
      ensures Continues(id, r)
      ensures r.None? ==> world.handlers[id].pc == WritingComment(old(world).handlers[id].pc.state)
      ensures r.None? ==> CodesDone(old(world).handlers[id].pc.state)
      ensures r.None? && config.codesEnabled && !Done(old(world).handlers[id].pc.state.codesOutcome, CODES_DONE) ==>
                RequestOf(old(world).handlers[id].pc) in world.shared.sent
      ensures calm ==>
                var obstacle := CodesObstacle(config, answers, old(world).shared.row.value);
                r == if obstacle.Some? then Some(Raised(obstacle.value)) else None
      ensures calm ==>
                var row, after := old(world).shared.row.value, world.shared.row.value;
                && Quiet() && SameAnalysis() && SameOutcome(Comment)
                && CodesStep(ProducesCodes(config, answers, row), config, answers, row, after)
                && world.shared.sent == old(world).shared.sent +
                     if row.codesOutcome.None? && config.codesEnabled then {RequestOf(old(world).handlers[id].pc)} else {}
    {
      hide WorldOk, HandlerStep, Perform;
      var lost := AwaitRunning(id);
      if lost {
        return Some(OwnershipLost);
      }
      if world.handlers[id].pc.state.codesOutcome.Some? {
        r := ReadCodes(id);
        return;
      }
      var outcome: Outcome;
      r, outcome := CallTarget(id);
      if r.Some? {
        return;
      }
      r := RecordOutcome(id, Codes, outcome);
    }

    /** The comment outcome found in the loaded row. */
    method ReadComment(id: HandlerId) returns (r: Option<RunResult>)
      requires Valid() && id in world.handlers && world.handlers[id].pc.WritingComment? && Mine(id)
      requires world.handlers[id].pc.state.commentOutcome.Some?
      modifies this`world
      ensures SameDelivery(id)
      ensures Continues(id, r)
      ensures r.None? ==> world.handlers[id].pc == Completing
      ensures r.None? <==> Done(old(world).handlers[id].pc.state.commentOutcome, COMMENT_DONE)
      ensures LoadObstacle(old(world).handlers[id].pc.state).None? ==> r.None?
      ensures world.shared == old(world).shared
    {
      hide WorldOk;
      match CompletedCheckpoint(world.handlers[id].pc.state.commentOutcome, COMMENT_DONE) {
        case Err(code) =>
          Step(id, Nothing, FailReading(Failure(code, true)));
          r := Some(Raised(Failure(code, true)));
        case Ok(_) =>
          Step(id, Nothing, Completing);
          r := None;
      }
    }

    /** The comment request itself, unless the write-back is disabled. */
    method CallForComment(id: HandlerId) returns (r: Option<RunResult>, outcome: Outcome)
      requires Valid() && id in world.handlers && world.handlers[id].pc.WritingComment? && Mine(id)
      requires world.handlers[id].pc.state.commentOutcome.None?
      modifies this`world
      ensures SameDelivery(id)
      ensures r.Some? ==> Ended(id, r.value) && !r.value.Succeeded?
      ensures r.None? ==> At(id, RecordingComment(old(world).handlers[id].pc.state, outcome)) && Mine(id)
      ensures world.shared == old(world).shared
      ensures calm ==> r == if config.commentEnabled && answers.comment.None?
                            then Some(Raised(Failure("ctc_write_back_unavailable", false)))
                            else None
      ensures calm && r.None? ==> outcome == if config.commentEnabled then answers.comment.value else SkippedDisabled
    {
      hide WorldOk;
      r, outcome := None, SkippedDisabled;
      if config.commentEnabled {
        var answer := answers.comment;
        if !calm {
          answer := *;
        }
        if answer.None? {
          r := Raise(id, Failure("ctc_write_back_unavailable", false));
          return;
        }
        outcome := answer.value;
      }
      Step(id, Nothing, RecordingComment(world.handlers[id].pc.state, outcome));
    }

    /** `_write_comment`. */
    method WriteComment(id: HandlerId) returns (r: Option<RunResult>)
      requires Valid() && id in world.handlers && world.handlers[id].pc.WritingComment? && Mine(id)
      requires calm ==> world.handlers[id].pc.state.commentOutcome == world.shared.row.value.commentOutcome
                        && LoadObstacle(world.handlers[id].pc.state).None?
      modifies this
      ensures SameDelivery(id)
      ensures Continues(id, r)
      ensures r.None? ==> world.handlers[id].pc == Completing
      ensures r.None? ==> CommentDone(old(world).handlers[id].pc.state)
      ensures calm ==>
                var obstacle := CommentObstacle(config, answers, old(world).shared.row.value);
                r == if obstacle.Some? then Some(Raised(obstacle.value)) else None
      ensures calm ==>
                var row, after := old(world).shared.row.value, world.shared.row.value;
                && Quiet() && SameAnalysis() && SameOutcome(Codes) && world.shared.sent == old(world).shared.sent
                && CommentStep(ProducesComment(config, answers, row), config, answers, row, after)
    {
      hide WorldOk, HandlerStep, Perform;
      var lost := AwaitRunning(id);
      if lost {
        return Some(OwnershipLost);
      }
      if world.handlers[id].pc.state.commentOutcome.Some? {
        r := ReadComment(id);
        return;
      }
      var outcome: Outcome;
      r, outcome := CallForComment(id);
      if r.Some? {
        return;
      }
      r := RecordOutcome(id, Comment, outcome);
    }

    /** `_complete`. */
    method CompleteRun(id: HandlerId) returns (r: RunResult)
      requires At(id, Completing) && Mine(id)
      modifies this
      ensures SameDelivery(id)
      ensures Ended(id, r)
      ensures r.Succeeded? ==> Stands(Completed)
      ensures calm ==> r.Succeeded? && OnlyBeats() && world.shared.sent == old(world).shared.sent
    {
      var lost := AwaitRunning(id);
      if lost {
        return OwnershipLost;
      }
      var committed := Commit(id, Complete(world.handlers[id].worker), Acking);
      r := if committed.None? then Succeeded else committed.value;
    }

    /** The part of `execute` between its early exit and its completion. */
    method Investigate(id: HandlerId) returns (r: Option<RunResult>)
      requires Valid() && id in world.handlers && world.handlers[id].pc.Gathering? && Mine(id)
      requires calm ==> world.handlers[id].pc.state == world.shared.row.value && Starts(world.shared.row.value)
      modifies this
      ensures SameDelivery(id)
      ensures Continues(id, r)
      ensures r.None? ==> world.handlers[id].pc == Completing
      ensures calm ==>
                var obstacle := Obstacle(config, answers, old(world).shared.row.value);
                r == if obstacle.Some? then Some(Raised(obstacle.value)) else None
      ensures calm ==>
                && Quiet()
                && CheckpointsAfter(config, answers, old(world).shared.row.value, world.shared.row.value)
                && world.shared.sent == old(world).shared.sent + Requests(config, answers, old(world).shared.row.value)
    {
      hide WorldOk, HandlerStep, Perform, Obstacle, CheckpointsAfter, PlanAnalysis, CodesDone, CommentDone, Owned;
      ghost var row := world.shared.row;
      r := ResolveAnalysis(id);
      ghost var analysed := world.shared.row;
      if calm {
        PartsOfARun(config, answers, row.value, analysed.value, analysed.value, analysed.value);
      }
      if r.Some? {
        return;
      }
      r := WriteCodes(id);
      ghost var coded := world.shared.row;
      if calm {
        PartsOfARun(config, answers, row.value, analysed.value, coded.value, coded.value);
      }
      if r.Some? {
        return;
      }
      r := WriteComment(id);
      if calm {
        PartsOfARun(config, answers, row.value, analysed.value, coded.value, world.shared.row.value);
      }
    }

    /**
      `execute`: it returns normally only by committing the completion.  On a
      calm day it does so exactly when nothing stops a run of the row it loads,
      raises the first thing that does otherwise, and leaves the checkpoints
      and the requests of what it got through.
    */
    method Execute(id: HandlerId) returns (r: RunResult)
      requires At(id, Loading) && Mine(id)
      modifies this
      ensures SameDelivery(id)
      ensures Ended(id, r)
      ensures r.Succeeded? ==> Stands(Completed)
      ensures calm ==>
                var obstacle := Obstacle(config, answers, old(world).shared.row.value);
                r == if obstacle.Some? then Raised(obstacle.value) else Succeeded
      ensures calm ==> (r.Succeeded? <==> CanSucceed(config, answers, old(world).shared.row.value))
      ensures calm && r.Succeeded? ==> FullyRecorded(old(world).shared.row.value, world.shared.row.value)
      ensures calm ==>
                && Quiet()
                && CheckpointsAfter(config, answers, old(world).shared.row.value, world.shared.row.value)
                && world.shared.sent == old(world).shared.sent + Requests(config, answers, old(world).shared.row.value)
    {
      hide WorldOk, HandlerStep, Perform, Obstacle, CheckpointsAfter, Requests, Done, RowOk, CanSucceed, FullyRecorded;
      ghost var row := world.shared.row;
      var lost := AwaitRunning(id);
      if lost {
        return OwnershipLost;
      }
      ghost var loaded := world.shared.row;
      var ended := Load(id);
      if calm {
        NothingStops(config, answers, row.value);
        SameFate(config, answers, row.value, loaded.value, loaded.value, loaded.value);
        if !Starts(loaded.value) {
          NotStarted(config, answers, loaded.value);
        }
      }
      if ended.Some? {
        return ended.value;
      }
      if !world.handlers[id].pc.Completing? {
        ended := Investigate(id);
        if calm {
          SameFate(config, answers, row.value, loaded.value, world.shared.row.value, world.shared.row.value);
        }
        if ended.Some? {
          return ended.value;
        }
      }
      ghost var left := world.shared.row;
      r := CompleteRun(id);
      if calm {
        SuccessIsRecorded(config, answers, row.value, world.shared.row.value);
        SameFate(config, answers, row.value, loaded.value, left.value, world.shared.row.value);
      }
    }

    // ------------------------------------------ RecordInvestigationFailure

    /** The row is at attempt `attempt`, queued or failed with the failure's code. */
    ghost predicate MovedTo(status: Status, attempt: nat, f: Failure)
      reads this
    {
      && Stands(status)
      && world.shared.row.value.attemptCount == attempt
      && world.shared.row.value.errorCode == Some(f.errorCode)
    }

    /** The transition, fenced by the owner and the attempt that was read. */
    method ApplyFailure(id: HandlerId, clock: Time) returns (r: FailureOutcome)
      requires Valid() && id in world.handlers && world.handlers[id].pc.FailApplying?
      requires Mine(id) && (calm ==> world.shared.row.value.attemptCount == world.handlers[id].pc.attempt)
      modifies this
      ensures SameDelivery(id)
      ensures Valid() && id in world.handlers
      ensures world.handlers[id].pc == if r.TerminallyFailed? then Terming else Naking
      ensures var f, n := old(world.handlers[id].pc.failure), old(world.handlers[id].pc.attempt);
              && (r.Retry? ==> r.attempts == n && !f.permanent && n < config.maxAttempts && MovedTo(Queued, n, f))
              && (r.TerminallyFailed? ==> (f.permanent || n >= config.maxAttempts) && MovedTo(Failed, n, f))
      ensures calm ==> (r.Retry? || r.TerminallyFailed?) && OnlyBeats() && world.shared.sent == old(world).shared.sent
    {
      hide WorldOk, Perform, PerformUpdate, UpdateRow;
      Await(id);
      var h := world.handlers[id];
      var mutation := FailureFor(config, h.worker, h.pc.failure, h.pc.attempt, clock);
      var e := RowEffect(RowUpdate.Fail(mutation), true);
      FailureApplies(now, world.shared, mutation);
      var committed: bool, answered: bool := *, *;
      if !calm && !committed {
        Step(id, Nothing, Naking);
        return NotRecorded;
      }
      if !Matches(now, world.shared, e.update) {
        Step(id, e, Naking);
        return LostOwnership;
      }
      if mutation.target == Failed {
        assert Proceeds(config, now, world.shared, h, e, Goto(h, Terming));
        Step(id, e, if calm || answered then Terming else Naking);
        r := if calm || answered then TerminallyFailed else NotRecorded;
      } else {
        Step(id, e, Naking);
        r := Retry(h.pc.attempt);
      }
    }

    /**
      `execute` of the recorder: the read and the transition are two statements,
      and only the owner of the attempt that was read gets through.  A failure
      is retried only if it is transient and attempts are left, and recorded as
      terminal only otherwise; undisturbed, it is always one of the two.
    */
    method RecordFailure(id: HandlerId, clock: Time) returns (r: FailureOutcome)
      requires Valid() && id in world.handlers && world.handlers[id].pc.FailReading? && Mine(id)
      modifies this
      ensures SameDelivery(id)
      ensures Valid() && id in world.handlers
      ensures world.handlers[id].pc == if r.TerminallyFailed? then Terming else Naking
      ensures var f := old(world.handlers[id].pc.failure);
              && (r.Retry? ==> !f.permanent && r.attempts < config.maxAttempts && MovedTo(Queued, r.attempts, f))
              && (r.TerminallyFailed? ==> Stands(Failed)
                                          && (f.permanent || world.shared.row.value.attemptCount >= config.maxAttempts)
                                          && MovedTo(Failed, world.shared.row.value.attemptCount, f))
      ensures calm ==>
                var f, n := old(world.handlers[id].pc.failure), old(world.shared.row.value.attemptCount);
                && (r == Retry(n) <==> !f.permanent && n < config.maxAttempts)
                && (r == TerminallyFailed <==> f.permanent || n >= config.maxAttempts)
                && MovedTo(if !f.permanent && n < config.maxAttempts then Queued else Failed, n, f)
                && OnlyBeats() && world.shared.sent == old(world).shared.sent
    {
      hide WorldOk;
      Await(id);
      var h := world.handlers[id];
      var reached: bool := *;
      if !calm && !reached {
        Step(id, Nothing, Naking);
        return NotRecorded;
      }
      var row := world.shared.row;
      if row.None? || !Owned(row.value, h.worker) {
        Step(id, Nothing, Naking);
        return LostOwnership;
      }
      Step(id, Nothing, FailApplying(h.pc.failure, row.value.attemptCount));
      r := ApplyFailure(id, clock);
    }

    predicate Owns(sh: Shared, worker: WorkerId) {
      sh.row.Some? && Owned(sh.row.value, worker)
    }

    predicate OwnsAttempt(sh: Shared, h: Handler)
      requires h.pc.InterruptApplying?
    {
      Owns(sh, h.worker) && sh.row.value.attemptCount == h.pc.interrupted
    }

    method ApplyRelease(id: HandlerId) returns (released: bool)
      requires Valid() && id in world.handlers && world.handlers[id].pc.InterruptApplying?
      modifies this
      ensures At(id, Naking)
      ensures calm && OwnsAttempt(old(world).shared, old(world).handlers[id]) ==> released
      ensures released ==> Stands(Queued) && world.shared.row.value.errorCode == Some("shutdown_interrupted")
    {
      hide WorldOk;
      Await(id);
      var h := world.handlers[id];
      var release := RowUpdate.Fail(ReleaseFor(h.worker, h.pc.interrupted));
      released := Matches(now, world.shared, release);
      Step(id, RowEffect(release, false), Naking);
    }

    /** `_release_interrupted`: a handler its worker cancelled gives the row back, whatever the attempt count. */
    method ReleaseInterrupted(id: HandlerId) returns (released: bool)
      requires Valid() && id in world.handlers
      modifies this
      ensures At(id, Naking)
      ensures calm ==> (released <==> Owns(old(world).shared, old(world).handlers[id].worker))
      ensures released ==> Stands(Queued) && world.shared.row.value.errorCode == Some("shutdown_interrupted")
    {
      hide WorldOk;
      Step(id, Nothing, InterruptReading);
      Await(id);
      var row, worker := world.shared.row, world.handlers[id].worker;
      if row.None? || !Owned(row.value, worker) {
        Step(id, Nothing, Naking);
        return false;
      }
      Step(id, Nothing, InterruptApplying(row.value.attemptCount));
      released := ApplyRelease(id);
    }

    // ---------------------------------------------- NatsInvestigationHandler

    /** `_retry_delay`, before its jitter: the table entry of the attempt, the last one from then on. */
    function RetryDelay(attempts: nat): (delay: Time)
      requires retryDelays != []
      reads this
      ensures attempts <= 1 ==> delay == retryDelays[0]
      ensures 1 <= attempts <= |retryDelays| ==> delay == retryDelays[attempts - 1]
      ensures attempts >= |retryDelays| ==> delay == retryDelays[|retryDelays| - 1]
    {
      var index := if attempts <= 1 then 0 else attempts - 1;
      retryDelays[if index < |retryDelays| then index else |retryDelays| - 1]
    }

    /** Half a minute when the database failed, at once when another owns the row, by the table after a failure. */
    ghost predicate DelayFits(d: Disposition)
      reads this
      requires retryDelays != []
    {
      d.Naked? ==>
        match d.cause
        case DatabaseUnavailable => !calm && d.delay == 30.0
        case NotOwner => !calm && d.delay == 0.0
        case RunFailed(attempts) => attempts < config.maxAttempts && d.delay == RetryDelay(attempts)
        case LeaseLive => d.delay >= 0.0
    }

    /** How long the lease of the row still runs, by the worker's clock. */
    function Remaining(row: Row, clock: Time): (delay: Time)
      ensures delay >= 0.0
      ensures row.lease.Some? && row.lease.value >= clock ==> clock + delay == row.lease.value
      ensures row.lease.None? || row.lease.value <= clock ==> delay == 0.0
    {
      if row.lease.Some? then MaxTime(0.0, row.lease.value - clock) else 0.0
    }

    /** `_handle_unclaimed`: only a settled investigation is acked. */
    method HandleUnclaimed(id: HandlerId, clock: Time) returns (d: Disposition)
      requires At(id, Looking)
      modifies this
      ensures SameDelivery(id)
      ensures Valid() && id in world.handlers
      ensures d.Acked? ==> world.handlers[id].pc == Acking && Settled(world.shared)
      ensures !d.Acked? ==> world.handlers[id].pc == Naking && d.Naked? && d.delay >= 0.0
      ensures DelayFits(d) && (d.Naked? ==> d.cause.LeaseLive? || d.cause.DatabaseUnavailable?)
      ensures d.Naked? && d.cause.LeaseLive? ==>
                !Settled(world.shared) && d.delay == Remaining(world.shared.row.value, clock)
      ensures calm ==>
                && world.shared == old(world).shared
                && d == if Settled(world.shared) then Acked else Naked(Remaining(world.shared.row.value, clock), LeaseLive)
    {
      hide WorldOk;
      Await(id);
      var reached: bool := *;
      if !calm && !reached {
        Step(id, Nothing, Naking);
        return Naked(30.0, DatabaseUnavailable);
      }
      var row := world.shared.row;
      if row.None? || Terminal(row.value.status) {
        Step(id, Nothing, Acking);
        return Acked;
      }
      var delay := Remaining(row.value, clock);
      Step(id, Nothing, Naking);
      d := Naked(delay, LeaseLive);
    }

    /** There is a run to be made: the row is queued, or its lease has run out. */
    predicate Ready(sh: Shared, at: Time) {
      && sh.row.Some?
      && var row := sh.row.value;
         row.status == Queued || (row.status == Processing && row.lease.Some? && row.lease.value < at)
    }

    /**
      How an undisturbed run of the claimed row ends its delivery: acked with
      the investigation completed when nothing stops it; else termed with the
      investigation failed, or naked with it queued for another attempt.
    */
    ghost predicate Concludes(claimed: Row, d: Disposition)
      reads this
      requires retryDelays != []
    {
      && world.shared.row.Some?
      && CheckpointsAfter(config, answers, claimed, world.shared.row.value)
      && (match Obstacle(config, answers, claimed)
          case None => d == Acked && Stands(Completed)
          case Some(f) =>
            if f.permanent || claimed.attemptCount >= config.maxAttempts
            then d == Termed && MovedTo(Failed, claimed.attemptCount, f)
            else d == Naked(RetryDelay(claimed.attemptCount), RunFailed(claimed.attemptCount)) && MovedTo(Queued, claimed.attemptCount, f))
    }

    lemma ConcludesAlike(row: Row, claimed: Row, d: Disposition)
      requires retryDelays != [] && SameCheckpoints(row, claimed) && Concludes(claimed, d)
      ensures Concludes(row, d)
      ensures Requests(config, answers, claimed) == Requests(config, answers, row)
      ensures d.Acked? <==> Obstacle(config, answers, row).None?
    {
      var left := world.shared.row.value;
      SameFate(config, answers, row, claimed, left, left);
      hide Obstacle, CheckpointsAfter, Requests;
    }

    /** `_run_owned` and, when it raises, `_record_failure`. */
    method RunOwned(id: HandlerId, clock: Time) returns (d: Disposition)
      requires At(id, Loading) && Mine(id)
      modifies this
      ensures SameDelivery(id)
      ensures Valid() && id in world.handlers
      ensures world.handlers[id].pc == (match d case Acked => Acking case Termed => Terming case Naked(_, _) => Naking)
      ensures d.Acked? ==> Stands(Completed)
      ensures d.Termed? ==> Stands(Failed)
      ensures DelayFits(d) && (d.Naked? ==> !d.cause.LeaseLive?)
      ensures d.Naked? && d.cause.RunFailed? ==> Stands(Queued) && world.shared.row.value.attemptCount == d.cause.attempts
      ensures calm ==> Concludes(old(world).shared.row.value, d)
      ensures calm ==>
                && world.shared.sent == old(world).shared.sent + Requests(config, answers, old(world).shared.row.value)
                && world.shared.stream == old(world).shared.stream && now == old(now)
    {
      hide WorldOk, HandlerStep, Perform, Obstacle, CheckpointsAfter, Requests, RowOk;
      ghost var row := world.shared.row;
      var r := Execute(id);
      ghost var left := world.shared.row;
      match r {
        case Succeeded => return Acked;
        case OwnershipLost => return Naked(0.0, NotOwner);
        case Raised(_) =>
      }
      var recorded := RecordFailure(id, clock);
      if calm {
        SameFate(config, answers, row.value, row.value, left.value, world.shared.row.value);
      }
      match recorded {
        case TerminallyFailed => d := Termed;
        case Retry(attempts) => d := Naked(RetryDelay(attempts), RunFailed(attempts));
        case LostOwnership => d := Naked(0.0, NotOwner);
        case NotRecorded => d := Naked(30.0, DatabaseUnavailable);
      }
    }

    /** `_handle` up to the message's fate: decided, and not yet told to the broker. */
    method Decide(id: HandlerId, clock: Time) returns (d: Disposition)
      requires At(id, Claiming)
      modifies this
      ensures SameDelivery(id)
      ensures Valid() && id in world.handlers
      ensures world.handlers[id].pc == (match d case Acked => Acking case Termed => Terming case Naked(_, _) => Naking)
      ensures !d.Naked? ==> Settled(world.shared)
      ensures DelayFits(d)
      ensures calm && Ready(old(world).shared, old(now)) ==>
                var row := old(world).shared.row.value;
                && Concludes(row.(attemptCount := row.attemptCount + 1), d)
                && (d.Acked? <==> CanSucceed(config, answers, row))
                && world.shared.sent == old(world).shared.sent + Requests(config, answers, row)
      ensures calm && !Ready(old(world).shared, old(now)) ==>
                && world.shared == old(world).shared
                && d == if Settled(world.shared) then Acked else Naked(Remaining(world.shared.row.value, clock), LeaseLive)
      ensures calm ==> world.shared.stream == old(world).shared.stream
    {
      hide WorldOk, Perform, HandlerStep, Matches, Obstacle, Concludes, Requests, RowOk, CanSucceed;
      Await(id);
      ClaimSteps(config, now, world.shared, world.handlers[id]);
      var worker := world.handlers[id].worker;
      var claim := RowEffect(RowUpdate.Claim(worker, config.leaseSeconds), false);
      ClaimTakes(now, world.shared, worker, config.leaseSeconds);
      var reached: bool, answered: bool := *, *;
      if !calm && !reached {
        Step(id, Nothing, Naking);
        return Naked(30.0, DatabaseUnavailable);
      }
      if !calm && !answered {
        Step(id, claim, Naking);
        return Naked(30.0, DatabaseUnavailable);
      }
      if !Matches(now, world.shared, claim.update) {
        Step(id, claim, Looking);
        d := HandleUnclaimed(id, clock);
        return;
      }
      ghost var row := world.shared.row.value;
      Step(id, claim, Loading);
      ghost var claimed := world.shared.row.value;
      d := RunOwned(id, clock);
      if calm {
        var next := row.(attemptCount := row.attemptCount + 1);
        ConcludesAlike(next, claimed, d);
        CountDoesNotMatter(config, answers, row, next);
      }
    }

    /**
      `_handle`: the delivery ends with one ack, term or nak, and it acks or
      terms only an investigation that is terminal or gone.  Undisturbed, a row
      that can be claimed is run to the end `Concludes` gives it; otherwise the
      delivery is acked, or naked for the rest of the other lease; and the
      message goes exactly with an ack or a term.
    */
    method HandleDelivery(id: HandlerId, clock: Time) returns (d: Disposition)
      requires At(id, Claiming)
      modifies this
      ensures Valid() && id !in world.handlers
      ensures !d.Naked? ==> Settled(world.shared)
      ensures DelayFits(d)
      ensures calm && Ready(old(world).shared, old(now)) ==>
                var row := old(world).shared.row.value;
                && Concludes(row.(attemptCount := row.attemptCount + 1), d)
                && (d.Acked? <==> CanSucceed(config, answers, row))
                && world.shared.sent == old(world).shared.sent + Requests(config, answers, row)
      ensures calm && !Ready(old(world).shared, old(now)) ==>
                && world.shared.row == old(world).shared.row
                && d == if Settled(world.shared) then Acked else Naked(Remaining(world.shared.row.value, clock), LeaseLive)
      ensures calm ==>
                world.shared.stream == old(world).shared.stream - if d.Naked? then {} else {old(world.handlers[id]).sequence}
    {
      hide WorldOk, Obstacle, CheckpointsAfter, Requests, RowOk, CanSucceed;
      d := Decide(id, clock);
      Await(id);
      if d.Naked? {
        Do(Handle(id, Nothing, None));
      } else {
        var delivered: bool := *;
        Do(Handle(id, if calm || delivered then RemoveMessage(world.handlers[id].sequence) else Nothing, None));
      }
    }
  }
}
