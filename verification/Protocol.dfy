/**
  One investigation as a concurrent system: its row, its outbox event, its
  stream messages, the codes requests sent for it, the reconciler's
  observations of it, and any number of deliveries being handled by any
  workers.

  `Shared` is everything several actors see.  An actor changes it only by an
  `Effect`, one atomic commit or broker operation.  A `Handler` is one delivery
  in one worker process; its program counter names the next statement of
  worker/adapters/nats/handler.py,
  worker/application/investigate_exception.py or
  worker/application/record_investigation_failure.py.  Handlers, crashes,
  redeliveries, lease expiries and the environment interleave freely.
*/
module Protocol {
  import opened Prelude
  import opened Rows
  import opened Checkpoints
  import opened Reconciliation

  datatype Config = Config(leaseSeconds: Time, maxAttempts: nat, codesEnabled: bool, commentEnabled: bool)

  predicate ValidConfig(c: Config) { c.leaseSeconds > 0.0 && c.maxAttempts >= 1 }

  datatype EventState = Unpublished | Published(at: Time) | Expired

  datatype CodesWrite = CodesWrite(version: int, reasonCode: string, resolutionCode: string)

  /** An observation, with how often the row had been claimed and extended by then. */
  datatype Observation = Observation(state: Option<Observed>, at: Time, claimsThen: nat, extensionsThen: nat)

  /** Last group of fields: counters and logs no actor reads; theorems speak of them. */
  datatype Shared = Shared(
    row: Option<Row>,
    event: EventState,
    stream: set<nat>,
    nextSequence: nat,
    stored: bool,
    publisherAcked: bool,
    observations: set<Observation>,
    cleanup: bool,
    sent: set<CodesWrite>,
    targetVersion: int,
    claims: nat,
    extensions: nat,
    retries: nat,
    persisted: seq<Checkpoint>,
    codesLog: seq<Outcome>,
    commentLog: seq<Outcome>,
    applied: seq<CodesWrite>
  )

  /** The investigation as its admission commits it: a queued row and its event. */
  function Admitted(exceptionId: string, targetVersion: int): Shared {
    Shared(Some(NewRow(exceptionId)), Unpublished, {}, 1, false, false, {}, false, {}, targetVersion,
           0, 0, 0, [], [], [], [])
  }

  /** Nothing more will be done for this investigation. */
  predicate Settled(sh: Shared) { sh.row.None? || Terminal(sh.row.value.status) }

  // ---------------------------------------------------------------- effects

  datatype Effect =
    | Nothing
    | RowEffect(update: RowUpdate, budgeted: bool)  // budgeted: a failure recorded by `execute`
    | SendCodes(write: CodesWrite)
    | RemoveMessage(sequence: nat)
    | StoreMessage(acked: bool)
    | DropDuplicate
    | CommitPublish
    | RollbackPublish
    | ExpireEvent(eventCutoff: Time)
    | DeleteRow(rowCutoff: Time)
    | Observe
    | Conclude(observation: Observation)
    | TargetProcess(request: CodesWrite)
    | TargetMoves(version: int)

  predicate Matches(now: Time, sh: Shared, u: RowUpdate) {
    sh.row.Some? && UpdateRow(sh.row.value, u, now).Some?
  }

  /** A conditional update: applied with its bookkeeping, or no change at all. */
  function PerformUpdate(now: Time, sh: Shared, u: RowUpdate, budgeted: bool): Shared {
    if !Matches(now, sh, u) then sh else
    var sh' := sh.(row := UpdateRow(sh.row.value, u, now));
    match u
    case Claim(_, _) => sh'.(claims := sh.claims + 1)
    case Extend(_, _) => sh'.(extensions := sh.extensions + 1)
    case Persist(_, checkpoint) => sh'.(persisted := sh.persisted + [checkpoint])
    case RecordStep(_, Codes, o) => sh'.(codesLog := sh.codesLog + [o])
    case RecordStep(_, Comment, o) => sh'.(commentLog := sh.commentLog + [o])
    case Fail(m) => if budgeted && m.target == Queued then sh'.(retries := sh.retries + 1) else sh'
    case _ => sh'
  }

  function PerformConclusion(now: Time, sh: Shared, o: Observation): Shared {
    match DecideMaxDelivery(o.state)
    case Missing => sh.(cleanup := true)
    case AlreadyTerminal => sh.(cleanup := true)
    case Deferred => sh
    case FailWith(m) =>
      if Matches(now, sh, Reconcile(m))
      then PerformUpdate(now, sh, Reconcile(m), false).(cleanup := true)
      else sh
  }

  function Perform(now: Time, sh: Shared, e: Effect): Shared {
    match e
    case Nothing => sh
    case RowEffect(u, budgeted) => PerformUpdate(now, sh, u, budgeted)
    case SendCodes(w) => sh.(sent := sh.sent + {w})
    case RemoveMessage(q) => sh.(stream := sh.stream - {q})
    case StoreMessage(acked) =>
      sh.(stream := sh.stream + {sh.nextSequence}, nextSequence := sh.nextSequence + 1,
          stored := true, publisherAcked := sh.publisherAcked || acked)
    case DropDuplicate => sh.(publisherAcked := true)
    case CommitPublish => sh.(event := Published(now), publisherAcked := false)
    case RollbackPublish => sh.(publisherAcked := false)
    case ExpireEvent(_) => sh.(event := Expired)
    case DeleteRow(_) => sh.(row := None)
    case Observe =>
      var state := if sh.row.None? then None
                   else Some(ObserveRow(sh.row.value, now));
      sh.(observations := sh.observations + {Observation(state, now, sh.claims, sh.extensions)})
    case Conclude(o) => PerformConclusion(now, sh, o)
    case TargetProcess(w) =>
      if w.version == sh.targetVersion
      then sh.(targetVersion := sh.targetVersion + 1, applied := sh.applied + [w])
      else sh
    case TargetMoves(v) => sh.(targetVersion := v)
  }

  /** Effects no delivery handler causes, and when each can happen. */
  predicate Environment(sh: Shared, e: Effect) {
    match e
    case StoreMessage(_) => sh.event == Unpublished
    case DropDuplicate => sh.event == Unpublished && sh.stored
    case CommitPublish => sh.event == Unpublished && sh.publisherAcked
    case RollbackPublish => true
    case ExpireEvent(cutoff) => sh.event.Published? && sh.event.at < cutoff
    case DeleteRow(cutoff) =>
      && sh.row.Some?
      && Terminal(sh.row.value.status)
      && sh.row.value.completedAt.Some?
      && sh.row.value.completedAt.value < cutoff
    case Observe => true
    case Conclude(o) => o in sh.observations
    case RemoveMessage(_) => sh.cleanup
    case TargetProcess(w) => w in sh.sent
    case TargetMoves(v) => v > sh.targetVersion
    case _ => false
  }

  // --------------------------------------------------------------- handlers

  datatype Failure = Failure(errorCode: string, permanent: bool)

  datatype Pc =
    | Claiming
    | Looking
    | Loading
    | Gathering(state: Row)
    | Persisting(state: Row, fetched: int, analysis: Analysis)
    | WritingCodes(state: Row, fetched: int, analysis: Analysis)
    | RecordingCodes(state: Row, codesResult: Outcome)
    | WritingComment(state: Row)
    | RecordingComment(state: Row, commentResult: Outcome)
    | Completing
    | FailReading(failure: Failure)
    | FailApplying(failure: Failure, attempt: nat)
    | InterruptReading
    | InterruptApplying(interrupted: nat)
    | Acking
    | Terming
    | Naking

  datatype Handler = Handler(worker: WorkerId, sequence: nat, pc: Pc)

  /** Inside `action.execute`: the only counters that write checkpoints. */
  predicate Running(h: Handler) {
    match h.pc
    case Loading => true
    case Gathering(_) => true
    case Persisting(_, _, _) => true
    case WritingCodes(_, _, _) => true
    case RecordingCodes(_, _) => true
    case WritingComment(_) => true
    case RecordingComment(_, _) => true
    case Completing => true
    case _ => false
  }

  function Goto(h: Handler, pc: Pc): Option<Handler> { Some(h.(pc := pc)) }

  /** `_load_owned`, then the early exit of `execute`. */
  function AfterLoad(row: Option<Row>, worker: WorkerId): Pc {
    if row.None? then FailReading(Failure("investigation_not_found", true))
    else if row.value.workerId != Some(worker) then Naking
    else
      match WriteBackComplete(row.value)
      case Err(code) => FailReading(Failure(code, true))
      case Ok(true) => Completing
      case Ok(false) => Gathering(row.value)
  }

  /** Where fetching the source and, if one is needed, producing an analysis leads; both are arbitrary. */
  predicate FollowsGather(state: Row, pc: Pc) {
    match PlanAnalysis(state)
    case Reuse(a) => pc.WritingCodes? && pc == WritingCodes(state, pc.fetched, a)
    case Analyze => pc.Persisting? && pc == Persisting(state, pc.fetched, pc.analysis)
    case Reject(code) => pc == FailReading(Failure(code, true))
  }

  /** A recorded outcome lets the run go on to `next`, or rejects the investigation. */
  function AfterRecord(outcome: Outcome, allowed: set<Outcome>, next: Pc): Pc {
    if outcome in allowed then next else FailReading(Failure("write_back_rejected", true))
  }

  /** A conditional update of a run: not matched means ownership was lost, and the answer to a commit can be lost. */
  predicate AfterUpdate(now: Time, sh: Shared, h: Handler, u: RowUpdate, next: Pc, h': Option<Handler>) {
    if Matches(now, sh, u)
    then h' == Goto(h, next) || h' == Goto(h, FailReading(Failure("platform_database_unavailable", false)))
    else h' == Goto(h, Naking)
  }

  function FailureFor(c: Config, worker: WorkerId, f: Failure, attempt: nat, clock: Time): FailureMutation {
    if f.permanent || attempt >= c.maxAttempts
    then FailureMutation(worker, attempt, Failed, Some(clock), f.errorCode)
    else FailureMutation(worker, attempt, Queued, None, f.errorCode)
  }

  /** The worker's own clock, as far as the mutation shows it. */
  function FailureClock(m: FailureMutation): Time {
    if m.completedAt.Some? then m.completedAt.value else 0.0
  }

  function ReleaseFor(worker: WorkerId, attempt: nat): FailureMutation {
    FailureMutation(worker, attempt, Queued, None, "shutdown_interrupted")
  }

  /** The normal next statement of handler `h`: its effect `e` and its next state. */
  predicate Proceeds(c: Config, now: Time, sh: Shared, h: Handler, e: Effect, h': Option<Handler>) {
    match h.pc
    case Claiming =>
      && e == RowEffect(Claim(h.worker, c.leaseSeconds), false)
      && h' == Goto(h, if Matches(now, sh, e.update) then Loading else Looking)
    case Looking =>
      e == Nothing && h' == Goto(h, if Settled(sh) then Acking else Naking)
    case Loading =>
      e == Nothing && h' == Goto(h, AfterLoad(sh.row, h.worker))
    case Gathering(state) =>
      e == Nothing && h'.Some? && h' == Goto(h, h'.value.pc) && FollowsGather(state, h'.value.pc)
    case Persisting(state, fetched, analysis) =>
      && e == RowEffect(Persist(h.worker, Checkpoint(Some(analysis), Some(fetched))), false)
      && AfterUpdate(now, sh, h, e.update, WritingCodes(state, fetched, analysis), h')
    case WritingCodes(state, fetched, analysis) =>
      (match CompletedCheckpoint(state.codesOutcome, CODES_DONE)
       case Err(code) => e == Nothing && h' == Goto(h, FailReading(Failure(code, true)))
       case Ok(Some(_)) => e == Nothing && h' == Goto(h, WritingComment(state))
       case Ok(None) =>
         if !c.codesEnabled then
           e == Nothing && h' == Goto(h, RecordingCodes(state, SkippedDisabled))
         else
           && e == SendCodes(CodesWrite(CheckpointVersion(state, fetched), analysis.reasonCode, analysis.resolutionCode))
           && h'.Some? && h'.value.pc.RecordingCodes?
           && h' == Goto(h, RecordingCodes(state, h'.value.pc.codesResult)))
    case RecordingCodes(state, o) =>
      && e == RowEffect(RecordStep(h.worker, Codes, o), false)
      && AfterUpdate(now, sh, h, e.update, AfterRecord(o, CODES_DONE, WritingComment(state)), h')
    case WritingComment(state) =>
      && e == Nothing
      && (match CompletedCheckpoint(state.commentOutcome, COMMENT_DONE)
          case Err(code) => h' == Goto(h, FailReading(Failure(code, true)))
          case Ok(Some(_)) => h' == Goto(h, Completing)
          case Ok(None) =>
            if !c.commentEnabled then h' == Goto(h, RecordingComment(state, SkippedDisabled))
            else
              && h'.Some? && h'.value.pc.RecordingComment?
              && h' == Goto(h, RecordingComment(state, h'.value.pc.commentResult)))
    case RecordingComment(state, o) =>
      && e == RowEffect(RecordStep(h.worker, Comment, o), false)
      && AfterUpdate(now, sh, h, e.update, AfterRecord(o, COMMENT_DONE, Completing), h')
    case Completing =>
      && e == RowEffect(Complete(h.worker), false)
      && AfterUpdate(now, sh, h, e.update, Acking, h')
    case FailReading(f) =>
      && e == Nothing
      && h' == Goto(h, if sh.row.Some? && Owned(sh.row.value, h.worker)
                       then FailApplying(f, sh.row.value.attemptCount) else Naking)
    case FailApplying(f, attempt) =>
      && e.RowEffect? && e.budgeted && e.update.Fail?
      && e.update.failure == FailureFor(c, h.worker, f, attempt, FailureClock(e.update.failure))
      && h' == Goto(h, if Matches(now, sh, e.update) && e.update.failure.target == Failed then Terming else Naking)
    case InterruptReading =>
      && e == Nothing
      && h' == Goto(h, if sh.row.Some? && Owned(sh.row.value, h.worker)
                       then InterruptApplying(sh.row.value.attemptCount) else Naking)
    case InterruptApplying(attempt) =>
      e == RowEffect(Fail(ReleaseFor(h.worker, attempt)), false) && h' == Goto(h, Naking)
    case Acking => e == RemoveMessage(h.sequence) && h' == None
    case Terming => e == RemoveMessage(h.sequence) && h' == None
    case Naking => e == Nothing && h' == None
  }

  /**
    What can befall handler `h` instead: it crashes, its worker shuts down, the
    database fails it (before the commit, or after it with the answer lost),
    its run raises, its heartbeat extends the lease or finds it gone.
  */
  predicate Befalls(c: Config, now: Time, sh: Shared, h: Handler, e: Effect, h': Option<Handler>) {
    || (e == Nothing && (h' == None || h' == Goto(h, InterruptReading) || h' == Goto(h, Naking)))
    || (h.pc == Claiming && e == RowEffect(Claim(h.worker, c.leaseSeconds), false) && h' == Goto(h, Naking))
    || (h.pc.FailApplying? && Proceeds(c, now, sh, h, e, Goto(h, Terming)) && h' == Goto(h, Naking))
    || (Running(h) && e == Nothing && h'.Some? && h'.value.pc.FailReading? && h' == Goto(h, h'.value.pc))
    || (Running(h) && h.pc.WritingCodes? && e.SendCodes? && h' == Goto(h, FailReading(Failure("ctc_write_back_unavailable", false)))
        && Proceeds(c, now, sh, h, e, Goto(h, RecordingCodes(h.pc.state, Written))))
    || (Running(h) && e == RowEffect(Extend(h.worker, c.leaseSeconds), false)
        && h' == (if Matches(now, sh, e.update) then Some(h) else Goto(h, Naking)))
  }

  predicate HandlerStep(c: Config, now: Time, sh: Shared, h: Handler, e: Effect, h': Option<Handler>) {
    Proceeds(c, now, sh, h, e, h') || Befalls(c, now, sh, h, e, h')
  }

  // ------------------------------------------------------------------ runs

  type HandlerId = int

  datatype World = World(shared: Shared, handlers: map<HandlerId, Handler>)

  datatype Action =
    | Deliver(id: HandlerId, worker: WorkerId, sequence: nat)
    | Handle(handler: HandlerId, effect: Effect, next: Option<Handler>)
    | Env(happening: Effect)

  predicate Enabled(c: Config, now: Time, s: World, a: Action) {
    match a
    case Deliver(id, _, q) => id !in s.handlers && q in s.shared.stream
    case Handle(id, e, h') => id in s.handlers && HandlerStep(c, now, s.shared, s.handlers[id], e, h')
    case Env(e) => Environment(s.shared, e)
  }

  function After(now: Time, s: World, a: Action): World {
    match a
    case Deliver(id, w, q) => s.(handlers := s.handlers[id := Handler(w, q, Claiming)])
    case Handle(id, e, h') =>
      World(Perform(now, s.shared, e),
            if h'.Some? then s.handlers[id := h'.value] else s.handlers - {id})
    case Env(e) => s.(shared := Perform(now, s.shared, e))
  }

  /** One thing that happened, and the database clock when it did. */
  datatype Happening = Happening(at: Time, action: Action)

  function InitialWorld(exceptionId: string, targetVersion: int): World {
    World(Admitted(exceptionId, targetVersion), map[])
  }

  /** The world after a history, starting from the admission. */
  function WorldAfter(init: World, history: seq<Happening>): World {
    if history == [] then init
    else
      var last := history[|history| - 1];
      After(last.at, WorldAfter(init, history[..|history| - 1]), last.action)
  }

  function ClockAfter(start: Time, history: seq<Happening>): Time {
    if history == [] then start else history[|history| - 1].at
  }

  /** Every step is enabled when it happens, and the clock never goes back. */
  predicate Possible(c: Config, start: Time, init: World, history: seq<Happening>) {
    history == [] ||
    (var before := history[..|history| - 1];
     var last := history[|history| - 1];
     && Possible(c, start, init, before)
     && ClockAfter(start, before) <= last.at
     && Enabled(c, last.at, WorldAfter(init, before), last.action))
  }
}
