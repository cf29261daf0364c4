/**
  What the durable checkpoints of one investigation guarantee when at most one
  run of it is live per worker id: each is written once, they are written in
  order, and every codes request carries the one persisted analysis.  Without
  that hypothesis they do not: module TwoRuns has a history in which the codes
  are applied twice.
*/
module CheckpointOrder {
  import opened Prelude
  import opened Rows
  import opened Checkpoints
  import opened Reconciliation
  import opened Protocol
  import opened Delivery

  // ------------------------------------------------------------- hypothesis

  /**
    A worker's claim succeeds only while none of its earlier runs of the
    investigation is still going.  A claim that matches nothing, such as that of
    a redelivery while the run is live, is no matter; a claim that is committed
    but whose answer is lost counts.
  */
  predicate SingleLiveRunStep(at: Time, s: World, a: Action) {
    && a.Handle? && a.handler in s.handlers && a.effect.RowEffect? && a.effect.update.Claim?
    && Matches(at, s.shared, a.effect.update) ==>
      forall id | id in s.handlers :: Running(s.handlers[id]) ==> s.handlers[id].worker != a.effect.update.claimant
  }

  predicate SingleLiveRun(init: World, history: seq<Happening>) {
    history == [] ||
    (var before := history[..|history| - 1];
     && SingleLiveRun(init, before)
     && SingleLiveRunStep(history[|history| - 1].at, WorldAfter(init, before), history[|history| - 1].action))
  }

  // -------------------------------------------------------------- invariant

  /** The checkpoint columns are the logs, each at most one entry long, filled in order. */
  ghost predicate LogsOk(sh: Shared) {
    && |sh.persisted| <= 1
    && |sh.codesLog| <= 1
    && |sh.commentLog| <= 1
    && (sh.codesLog != [] ==> sh.persisted != [])
    && (sh.commentLog != [] ==> sh.codesLog != [] && sh.codesLog[0] in CODES_DONE)
    && (sh.persisted != [] ==> sh.persisted[0].analysis.Some? && sh.persisted[0].version.Some?)
  }

  ghost predicate ColumnsOk(sh: Shared) {
    sh.row.Some? ==>
      && sh.row.value.analysis == (if sh.persisted == [] then None else Some(sh.persisted[0]))
      && (sh.row.value.analysisPersistedAt.Some? <==> sh.persisted != [])
      && sh.row.value.codesOutcome == (if sh.codesLog == [] then None else Some(Recognised(sh.codesLog[0])))
      && sh.row.value.commentOutcome == (if sh.commentLog == [] then None else Some(Recognised(sh.commentLog[0])))
      && (sh.row.value.status == Completed ==>
            && sh.codesLog != []
            && sh.codesLog[0] in CODES_DONE
            && sh.commentLog != []
            && sh.commentLog[0] in COMMENT_DONE)
  }

  /** The write that the persisted analysis asks for. */
  function WriteOf(cp: Checkpoint): CodesWrite
    requires cp.analysis.Some? && cp.version.Some?
  {
    CodesWrite(cp.version.value, cp.analysis.value.reasonCode, cp.analysis.value.resolutionCode)
  }

  ghost predicate WritesOk(sh: Shared) {
    && (sh.sent != {} ==> sh.persisted != [])
    && (sh.persisted != [] && sh.persisted[0].analysis.Some? && sh.persisted[0].version.Some? ==>
          && (forall w :: w in sh.sent ==> w == WriteOf(sh.persisted[0]))
          && |sh.applied| <= 1
          && (sh.applied != [] ==>
                && sh.applied[0] == WriteOf(sh.persisted[0])
                && sh.targetVersion > sh.applied[0].version))
    && (sh.persisted == [] ==> sh.applied == [])
  }

  ghost predicate OrderOk(sh: Shared) { LogsOk(sh) && ColumnsOk(sh) && WritesOk(sh) }

  predicate Owns(sh: Shared, h: Handler) { sh.row.Some? && Owned(sh.row.value, h.worker) }

  /** The checkpoints `state` was read with are the ones the row still has. */
  predicate SameCheckpoints(state: Row, row: Row) {
    && state.analysis == row.analysis
    && state.analysisPersistedAt.Some? == row.analysisPersistedAt.Some?
    && state.codesOutcome == row.codesOutcome
    && state.commentOutcome == row.commentOutcome
  }

  /** The analysis a run goes on with is the persisted one, whoever owns the row by now. */
  ghost predicate HoldsPersisted(sh: Shared, state: Row, fetched: int, analysis: Analysis) {
    sh.persisted == [Checkpoint(Some(analysis), Some(CheckpointVersion(state, fetched)))]
  }

  /** What a run knows, and what the row looks like as long as the run still owns it. */
  ghost predicate RunOk(sh: Shared, h: Handler) {
    match h.pc
    case Gathering(state) =>
      && (state.analysisPersistedAt.Some? ==>
            sh.persisted != [] && state.analysis == Some(sh.persisted[0]))
      && (Owns(sh, h) ==> SameCheckpoints(state, sh.row.value))
    case Persisting(state, fetched, analysis) =>
      && state.analysisPersistedAt.None? && state.analysis.None?
      && (Owns(sh, h) ==> SameCheckpoints(state, sh.row.value))
    case WritingCodes(state, fetched, analysis) =>
      && HoldsPersisted(sh, state, fetched, analysis)
      && (Owns(sh, h) ==>
            sh.row.value.codesOutcome == state.codesOutcome && sh.row.value.commentOutcome == state.commentOutcome)
    case RecordingCodes(state, o) =>
      && sh.persisted != []
      && (Owns(sh, h) ==> sh.codesLog == [] && sh.row.value.commentOutcome == state.commentOutcome)
    case WritingComment(state) =>
      Owns(sh, h) ==>
        Done(sh.row.value.codesOutcome, CODES_DONE) && sh.row.value.commentOutcome == state.commentOutcome
    case RecordingComment(state, o) =>
      Owns(sh, h) ==> Done(sh.row.value.codesOutcome, CODES_DONE) && sh.commentLog == []
    case Completing =>
      Owns(sh, h) ==>
        Done(sh.row.value.codesOutcome, CODES_DONE) && Done(sh.row.value.commentOutcome, COMMENT_DONE)
    case _ => true
  }

  ghost predicate OneRunPerWorker(s: World) {
    forall a, b :: a in s.handlers && b in s.handlers && a != b && Running(s.handlers[a]) && Running(s.handlers[b])
      ==> s.handlers[a].worker != s.handlers[b].worker
  }

  ghost predicate Ordered(s: World) {
    && OrderOk(s.shared)
    && OneRunPerWorker(s)
    && (forall id :: id in s.handlers ==> RunOk(s.shared, s.handlers[id]))
  }

  // ------------------------------------------------------------- congruence

  /** Logs and checkpoint columns as before; the row may be gone. */
  ghost predicate CheckpointsKept(sh: Shared, sh': Shared) {
    && sh'.persisted == sh.persisted
    && sh'.codesLog == sh.codesLog
    && sh'.commentLog == sh.commentLog
    && (sh'.row.Some? ==> sh.row.Some? && SameCheckpoints(sh.row.value, sh'.row.value))
  }

  lemma RunKept(sh: Shared, sh': Shared, h: Handler)
    requires CheckpointsKept(sh, sh') && (Owns(sh', h) ==> Owns(sh, h)) && RunOk(sh, h)
    ensures RunOk(sh', h)
  {
  }

  lemma OrderKept(sh: Shared, sh': Shared)
    requires OrderOk(sh) && CheckpointsKept(sh, sh')
    requires sh'.row.Some? && sh'.row.value.status == Completed ==> sh.row.value.status == Completed
    requires sh'.sent == sh.sent && sh'.applied == sh.applied && sh'.targetVersion == sh.targetVersion
    ensures OrderOk(sh')
  {
  }

  /** Nobody owns the row who did not before. */
  predicate NoNewOwner(sh: Shared, sh': Shared) {
    sh'.row.Some? && sh'.row.value.status == Processing ==>
      && sh.row.Some?
      && sh.row.value.status == Processing
      && sh'.row.value.workerId == sh.row.value.workerId
  }

  /** Claims, extensions, failures and reconciliations. */
  predicate Quiet(u: RowUpdate) {
    match u
    case Claim(_, _) => true
    case Extend(_, _) => true
    case Fail(m) => m.target == Queued || m.target == Failed
    case Reconcile(m) => m.target == Failed
    case _ => false
  }

  /** Quiet updates leave the checkpoint columns and logs alone, and only a claim makes an owner. */
  lemma QuietUpdate(now: Time, sh: Shared, u: RowUpdate, budgeted: bool)
    requires Quiet(u) && OrderOk(sh)
    ensures var sh' := PerformUpdate(now, sh, u, budgeted);
            && CheckpointsKept(sh, sh')
            && OrderOk(sh')
            && (NoNewOwner(sh, sh') || u.Claim?)
            && (u.Claim? && Matches(now, sh, u) ==> sh'.row.Some? && sh'.row.value.workerId == Some(u.claimant))
  {
    var sh' := PerformUpdate(now, sh, u, budgeted);
    if Matches(now, sh, u) {
      assert SameCheckpoints(sh.row.value, UpdateRow(sh.row.value, u, now).value);
    }
    OrderKept(sh, sh');
  }

  // --------------------------------------------------------- what a step is

  /** The facts about a handler's step that others need. */
  ghost predicate StepKind(now: Time, sh: Shared, h: Handler, e: Effect, h': Option<Handler>) {
    && (e.Nothing? || e.RowEffect? || e.SendCodes? || e.RemoveMessage?)
    && (e.RowEffect? ==>
          && Speaker(e.update) == Some(h.worker)
          && (Quiet(e.update) || Running(h))
          && !e.update.Reconcile?
          && (e.update.Fail? ==> Quiet(e.update))
          && (e.update.Persist? ==> h.pc.Persisting? && e.update.checkpoint.analysis.Some? && e.update.checkpoint.version.Some?)
          && (e.update.RecordStep? && e.update.step == Codes ==> h.pc.RecordingCodes?)
          && (e.update.RecordStep? && e.update.step == Comment ==> h.pc.RecordingComment?)
          && (e.update.Complete? ==> h.pc.Completing?))
    && (e.SendCodes? ==>
          && h.pc.WritingCodes?
          && e.write == CodesWrite(CheckpointVersion(h.pc.state, h.pc.fetched), h.pc.analysis.reasonCode, h.pc.analysis.resolutionCode))
    && (h'.Some? ==>
          && h'.value.worker == h.worker
          && (Running(h'.value) ==> Running(h) || (h.pc.Claiming? && h'.value.pc.Loading? && e.RowEffect? && e.update.Claim?
                                                 && Matches(now, sh, e.update))))
  }

  lemma StepKinds(c: Config, now: Time, sh: Shared, h: Handler, e: Effect, h': Option<Handler>)
    requires HandlerStep(c, now, sh, h, e, h')
    ensures StepKind(now, sh, h, e, h')
  {
    if Proceeds(c, now, sh, h, e, h') {
      ProceedsKind(c, now, sh, h, e, h');
    } else if h.pc.FailApplying? && Proceeds(c, now, sh, h, e, Goto(h, Terming)) {
      ProceedsKind(c, now, sh, h, e, Goto(h, Terming));
    } else if h.pc.WritingCodes? && e.SendCodes? {
      ProceedsKind(c, now, sh, h, e, Goto(h, RecordingCodes(h.pc.state, Written)));
    }
  }

  lemma ProceedsKind(c: Config, now: Time, sh: Shared, h: Handler, e: Effect, h': Option<Handler>)
    requires Proceeds(c, now, sh, h, e, h')
    ensures StepKind(now, sh, h, e, h')
  {
    match h.pc {
      case _ =>
    }
  }

  // ------------------------------------------------- effects keep the order

  /** The checkpoint writes of a run find the row as the run left it. */
  lemma EffectOrdered(now: Time, sh: Shared, h: Handler, e: Effect, h': Option<Handler>)
    requires OrderOk(sh) && RunOk(sh, h) && StepKind(now, sh, h, e, h')
    ensures OrderOk(Perform(now, sh, e))
    ensures e.RowEffect? && Matches(now, sh, e.update) && e.update.Persist? ==> sh.persisted == []
    ensures e.RowEffect? && Matches(now, sh, e.update) && e.update.RecordStep? ==>
              if e.update.step == Codes then sh.codesLog == [] else sh.commentLog == []
  {
    match e {
      case RowEffect(u, budgeted) =>
        if Quiet(u) {
          QuietUpdate(now, sh, u, budgeted);
        } else if Matches(now, sh, u) {
          CheckpointWriteOrdered(now, sh, h, u, budgeted);
        }
      case SendCodes(w) =>
        assert sh.persisted[0] == Checkpoint(Some(h.pc.analysis), Some(CheckpointVersion(h.pc.state, h.pc.fetched)));
        SendOrdered(sh, w);
      case _ => OrderKept(sh, Perform(now, sh, e));
    }
  }

  lemma SendOrdered(sh: Shared, w: CodesWrite)
    requires OrderOk(sh) && sh.persisted != [] && w == WriteOf(sh.persisted[0])
    ensures OrderOk(sh.(sent := sh.sent + {w}))
  {
  }

  lemma CheckpointWriteOrdered(now: Time, sh: Shared, h: Handler, u: RowUpdate, budgeted: bool)
    requires OrderOk(sh) && RunOk(sh, h) && Matches(now, sh, u) && Speaker(u) == Some(h.worker)
    requires
      || (u.Persist? && h.pc.Persisting? && u.checkpoint.analysis.Some? && u.checkpoint.version.Some?)
      || (u.RecordStep? && (if u.step == Codes then h.pc.RecordingCodes? else h.pc.RecordingComment?))
      || (u.Complete? && h.pc.Completing?)
    ensures OrderOk(PerformUpdate(now, sh, u, budgeted))
    ensures u.Persist? ==> sh.persisted == []
    ensures u.RecordStep? ==> if u.step == Codes then sh.codesLog == [] else sh.commentLog == []
  {
    assert Owns(sh, h);
  }

  // ------------------------------------------------------- a run's own step

  lemma RunStepOrdered(c: Config, now: Time, sh: Shared, h: Handler, e: Effect, h': Option<Handler>)
    requires OrderOk(sh) && RunOk(sh, h) && HandlerStep(c, now, sh, h, e, h')
    ensures OrderOk(Perform(now, sh, e))
    ensures h'.Some? ==> RunOk(Perform(now, sh, e), h'.value)
  {
    hide OrderOk, PerformUpdate;
    StepKinds(c, now, sh, h, e, h');
    EffectOrdered(now, sh, h, e, h');
    if h'.Some? && Running(h'.value) && Running(h) {
      if Proceeds(c, now, sh, h, e, h') {
        ProceedsOrdered(c, now, sh, h, e, h'.value);
      } else {
        assert h'.value == h && e.update.Extend?;
        QuietUpdate(now, sh, e.update, e.budgeted);
        RunKept(sh, Perform(now, sh, e), h);
      }
    }
  }

  lemma ProceedsOrdered(c: Config, now: Time, sh: Shared, h: Handler, e: Effect, h': Handler)
    requires OrderOk(sh) && RunOk(sh, h) && Running(h)
    requires Proceeds(c, now, sh, h, e, Some(h')) && Running(h')
    ensures RunOk(Perform(now, sh, e), h')
  {
    hide OrderOk, RunOk, Perform;
    match h.pc {
      case Loading => LoadingOrdered(c, now, sh, h, e, h');
      case Gathering(_) => GatheringOrdered(c, now, sh, h, e, h');
      case Persisting(_, _, _) => PersistingOrdered(c, now, sh, h, e, h');
      case WritingCodes(_, _, _) => WritingCodesOrdered(c, now, sh, h, e, h');
      case RecordingCodes(_, _) => RecordingCodesOrdered(c, now, sh, h, e, h');
      case WritingComment(_) => WritingCommentOrdered(c, now, sh, h, e, h');
      case RecordingComment(_, _) => RecordingCommentOrdered(c, now, sh, h, e, h');
      case Completing =>
    }
  }

  lemma LoadingOrdered(c: Config, now: Time, sh: Shared, h: Handler, e: Effect, h': Handler)
    requires OrderOk(sh) && h.pc.Loading? && Proceeds(c, now, sh, h, e, Some(h')) && Running(h')
    ensures RunOk(Perform(now, sh, e), h')
  {
    WriteBackCompleteMeansBothDone(sh.row.value);
  }

  lemma WritingCodesOrdered(c: Config, now: Time, sh: Shared, h: Handler, e: Effect, h': Handler)
    requires OrderOk(sh) && RunOk(sh, h) && h.pc.WritingCodes? && Proceeds(c, now, sh, h, e, Some(h')) && Running(h')
    ensures RunOk(Perform(now, sh, e), h')
  {
  }

  lemma WritingCommentOrdered(c: Config, now: Time, sh: Shared, h: Handler, e: Effect, h': Handler)
    requires OrderOk(sh) && RunOk(sh, h) && h.pc.WritingComment? && Proceeds(c, now, sh, h, e, Some(h')) && Running(h')
    ensures RunOk(Perform(now, sh, e), h')
  {
  }

  lemma GatheringOrdered(c: Config, now: Time, sh: Shared, h: Handler, e: Effect, h': Handler)
    requires OrderOk(sh) && RunOk(sh, h) && h.pc.Gathering? && Proceeds(c, now, sh, h, e, Some(h')) && Running(h')
    ensures RunOk(Perform(now, sh, e), h')
  {
  }

  lemma PersistingOrdered(c: Config, now: Time, sh: Shared, h: Handler, e: Effect, h': Handler)
    requires OrderOk(sh) && RunOk(sh, h) && h.pc.Persisting? && Proceeds(c, now, sh, h, e, Some(h')) && Running(h')
    ensures RunOk(Perform(now, sh, e), h')
  {
    assert Matches(now, sh, e.update) && Owns(sh, h);
    assert sh.persisted == [];
    assert CheckpointVersion(h.pc.state, h.pc.fetched) == h.pc.fetched;
  }

  lemma RecordingCodesOrdered(c: Config, now: Time, sh: Shared, h: Handler, e: Effect, h': Handler)
    requires OrderOk(sh) && RunOk(sh, h) && h.pc.RecordingCodes? && Proceeds(c, now, sh, h, e, Some(h')) && Running(h')
    ensures RunOk(Perform(now, sh, e), h')
  {
    assert Matches(now, sh, e.update) && Owns(sh, h);
  }

  lemma RecordingCommentOrdered(c: Config, now: Time, sh: Shared, h: Handler, e: Effect, h': Handler)
    requires OrderOk(sh) && RunOk(sh, h) && h.pc.RecordingComment? && Proceeds(c, now, sh, h, e, Some(h')) && Running(h')
    ensures RunOk(Perform(now, sh, e), h')
  {
    assert Matches(now, sh, e.update) && Owns(sh, h);
  }

  // ------------------------------------------------------ everyone else's

  /** Another handler's effect does not disturb a run of a different worker. */
  lemma RunUndisturbed(now: Time, sh: Shared, h: Handler, e: Effect, h': Option<Handler>, other: Handler)
    requires OrderOk(sh) && RunOk(sh, h) && RunOk(sh, other)
    requires StepKind(now, sh, h, e, h')
    requires Running(h) && Running(other) ==> h.worker != other.worker
    requires e.RowEffect? && e.update.Claim? && Matches(now, sh, e.update) && Running(other) ==> e.update.claimant != other.worker
    ensures RunOk(Perform(now, sh, e), other)
  {
    hide OrderOk;
    if Running(other) && e.RowEffect? && Matches(now, sh, e.update) {
      EffectOrdered(now, sh, h, e, h');
      if Quiet(e.update) {
        QuietUpdate(now, sh, e.update, e.budgeted);
        RunKept(sh, Perform(now, sh, e), other);
      } else {
        assert Owns(sh, h) && !Owns(sh, other);
        WriteUndisturbed(now, sh, e.update, e.budgeted, other);
      }
    } else if Running(other) {
      RunKept(sh, Perform(now, sh, e), other);
    }
  }

  /** A first checkpoint write under another owner tells a displaced run nothing new. */
  lemma WriteUndisturbed(now: Time, sh: Shared, u: RowUpdate, budgeted: bool, other: Handler)
    requires RunOk(sh, other) && Running(other)
    requires Matches(now, sh, u) && Speaker(u).Some? && Speaker(u).value != other.worker
    requires !Quiet(u) && !u.Fail? && !Owns(sh, other)
    requires u.Persist? ==> sh.persisted == []
    ensures RunOk(PerformUpdate(now, sh, u, budgeted), other)
  {
    var sh' := PerformUpdate(now, sh, u, budgeted);
    assert !Owns(sh', other) by {
      match u {
        case RecordStep(_, step, _) =>
        case _ =>
      }
    }
    assert sh'.persisted == sh.persisted || (u.Persist? && sh'.persisted != []);
  }

  /** Nothing the order speaks of has changed, except that the row may be gone. */
  predicate OrderUntouched(sh: Shared, sh': Shared) {
    && sh'.persisted == sh.persisted && sh'.codesLog == sh.codesLog && sh'.commentLog == sh.commentLog
    && sh'.sent == sh.sent && sh'.applied == sh.applied && sh'.targetVersion == sh.targetVersion
    && (sh'.row == sh.row || sh'.row.None?)
  }

  /** What the broker, the publisher, retention and a reading reconciler do. */
  lemma BystanderUntouched(now: Time, sh: Shared, e: Effect)
    requires Environment(sh, e) && !e.Conclude? && !e.TargetProcess? && !e.TargetMoves?
    ensures OrderUntouched(sh, Perform(now, sh, e))
  {
  }

  lemma UntouchedOrdered(sh: Shared, sh': Shared)
    requires OrderOk(sh) && OrderUntouched(sh, sh')
    ensures OrderOk(sh') && CheckpointsKept(sh, sh') && NoNewOwner(sh, sh')
  {
  }

  lemma TargetOrdered(now: Time, sh: Shared, e: Effect)
    requires OrderOk(sh) && Environment(sh, e) && (e.TargetProcess? || e.TargetMoves?)
    ensures OrderOk(Perform(now, sh, e)) && Perform(now, sh, e).row == sh.row
    ensures CheckpointsKept(sh, Perform(now, sh, e))
  {
    hide OrderOk;
    match e {
      case TargetProcess(w) =>
        if w.version == sh.targetVersion {
          TargetProcessOrdered(sh, w);
        }
      case TargetMoves(v) => TargetMovesOrdered(sh, v);
    }
  }

  /** The environment - broker, publisher, reconciler, retention, target - leaves order and runs alone. */
  lemma EnvironmentOrdered(now: Time, sh: Shared, e: Effect)
    requires OrderOk(sh) && Environment(sh, e)
    ensures OrderOk(Perform(now, sh, e))
    ensures CheckpointsKept(sh, Perform(now, sh, e))
    ensures NoNewOwner(sh, Perform(now, sh, e))
  {
    hide OrderOk, CheckpointsKept, PerformConclusion;
    match e {
      case Conclude(o) => ConclusionOrdered(now, sh, o);
      case TargetProcess(_) => TargetOrdered(now, sh, e);
      case TargetMoves(_) => TargetOrdered(now, sh, e);
      case _ =>
        BystanderUntouched(now, sh, e);
        UntouchedOrdered(sh, Perform(now, sh, e));
    }
  }

  /** The target applies a request at its version only, so the one request at most once. */
  lemma TargetProcessOrdered(sh: Shared, w: CodesWrite)
    requires OrderOk(sh) && w in sh.sent && w.version == sh.targetVersion
    ensures OrderOk(sh.(targetVersion := sh.targetVersion + 1, applied := sh.applied + [w]))
  {
  }

  lemma TargetMovesOrdered(sh: Shared, v: int)
    requires OrderOk(sh) && v > sh.targetVersion
    ensures OrderOk(sh.(targetVersion := v))
  {
  }

  lemma ConclusionOrdered(now: Time, sh: Shared, o: Observation)
    requires OrderOk(sh)
    ensures OrderOk(PerformConclusion(now, sh, o))
    ensures CheckpointsKept(sh, PerformConclusion(now, sh, o))
    ensures NoNewOwner(sh, PerformConclusion(now, sh, o))
  {
    hide OrderOk, PerformUpdate;
    match DecideMaxDelivery(o.state) {
      case Missing => CleanupOrdered(sh);
      case AlreadyTerminal => CleanupOrdered(sh);
      case Deferred =>
      case FailWith(m) =>
        if Matches(now, sh, Reconcile(m)) {
          QuietUpdate(now, sh, Reconcile(m), false);
          CleanupOrdered(PerformUpdate(now, sh, Reconcile(m), false));
        }
    }
  }

  lemma CleanupOrdered(sh: Shared)
    requires OrderOk(sh)
    ensures OrderOk(sh.(cleanup := true))
  {
  }

  // ------------------------------------------------------------------ steps

  lemma HandleOrdered(c: Config, now: Time, s: World, id: HandlerId, e: Effect, h': Option<Handler>)
    requires Ordered(s)
    requires id in s.handlers && HandlerStep(c, now, s.shared, s.handlers[id], e, h')
    requires SingleLiveRunStep(now, s, Handle(id, e, h'))
    ensures Ordered(After(now, s, Handle(id, e, h')))
  {
    hide OrderOk, RunOk, Perform, HandlerStep;
    var s' := After(now, s, Handle(id, e, h'));
    var h := s.handlers[id];
    RunStepOrdered(c, now, s.shared, h, e, h');
    StepKinds(c, now, s.shared, h, e, h');
    forall other | other in s'.handlers && other != id
      ensures RunOk(s'.shared, s'.handlers[other])
    {
      RunUndisturbed(now, s.shared, h, e, h', s.handlers[other]);
    }
  }

  lemma StepOrdered(c: Config, now: Time, s: World, a: Action)
    requires Ordered(s) && Enabled(c, now, s, a) && SingleLiveRunStep(now, s, a)
    ensures Ordered(After(now, s, a))
  {
    match a {
      case Deliver(_, _, _) =>
      case Handle(id, e, h') => HandleOrdered(c, now, s, id, e, h');
      case Env(e) =>
        EnvironmentOrdered(now, s.shared, e);
        forall id | id in s.handlers
          ensures RunOk(Perform(now, s.shared, e), s.handlers[id])
        {
          RunKept(s.shared, Perform(now, s.shared, e), s.handlers[id]);
        }
    }
  }

  lemma {:induction false} AlwaysOrdered(c: Config, start: Time, init: World, history: seq<Happening>)
    requires Ordered(init) && Possible(c, start, init, history) && SingleLiveRun(init, history)
    ensures Ordered(WorldAfter(init, history))
    decreases |history|
  {
    if history != [] {
      var before := history[..|history| - 1];
      var last := history[|history| - 1];
      AlwaysOrdered(c, start, init, before);
      StepOrdered(c, last.at, WorldAfter(init, before), last.action);
    }
  }

  // --------------------------------------------------------------- theorems

  /**
    Checkpoint order: across crashes, retries and takeovers each checkpoint is
    written at most once, codes only after the analysis, the comment only after
    the codes are done, and a completed row has all three.
  */
  lemma {:induction false} CheckpointsWrittenOnceInOrder(c: Config, start: Time, exceptionId: string, targetVersion: int, history: seq<Happening>)
    requires ValidConfig(c) && Possible(c, start, InitialWorld(exceptionId, targetVersion), history)
    requires SingleLiveRun(InitialWorld(exceptionId, targetVersion), history)
    ensures var sh := WorldAfter(InitialWorld(exceptionId, targetVersion), history).shared;
            && |sh.persisted| <= 1 && |sh.codesLog| <= 1 && |sh.commentLog| <= 1
            && (sh.row.Some? ==>
                  var row := sh.row.value;
                  && (row.codesOutcome.Some? ==> row.analysisPersistedAt.Some? && row.analysis.Some?)
                  && (row.commentOutcome.Some? ==> Done(row.codesOutcome, CODES_DONE))
                  && (row.status == Completed ==>
                        && row.analysisPersistedAt.Some?
                        && AnalysisFromCheckpoint(row.analysis).Ok?
                        && Done(row.codesOutcome, CODES_DONE)
                        && Done(row.commentOutcome, COMMENT_DONE)))
  {
    var init := InitialWorld(exceptionId, targetVersion);
    AlwaysOrdered(c, start, init, history);
  }

  /**
    Codes at most once: every codes request any run, retry or takeover ever
    sends is the same one, and a target that applies a request only at a
    matching version and then moves on applies it at most once - however often
    and however late the requests reach it.
  */
  lemma {:induction false} CodesAppliedAtMostOnce(c: Config, start: Time, exceptionId: string, targetVersion: int, history: seq<Happening>)
    requires ValidConfig(c) && Possible(c, start, InitialWorld(exceptionId, targetVersion), history)
    requires SingleLiveRun(InitialWorld(exceptionId, targetVersion), history)
    ensures AtMostOnce(WorldAfter(InitialWorld(exceptionId, targetVersion), history).shared)
  {
    AlwaysOrdered(c, start, InitialWorld(exceptionId, targetVersion), history);
    OrderMeansAtMostOnce(WorldAfter(InitialWorld(exceptionId, targetVersion), history).shared);
  }

  /** One persisted analysis, one request however often sent, at most one change of the target. */
  ghost predicate AtMostOnce(sh: Shared) {
    && |sh.applied| <= 1
    && (forall w :: w in sh.sent ==> CarriesPersisted(sh, w))
    && (forall w :: w in sh.applied ==> CarriesPersisted(sh, w))
  }

  ghost predicate CarriesPersisted(sh: Shared, w: CodesWrite) {
    && |sh.persisted| == 1
    && sh.persisted[0].analysis.Some?
    && sh.persisted[0].version == Some(w.version)
    && sh.persisted[0].analysis.value.reasonCode == w.reasonCode
    && sh.persisted[0].analysis.value.resolutionCode == w.resolutionCode
  }

  lemma OrderMeansAtMostOnce(sh: Shared)
    requires OrderOk(sh)
    ensures AtMostOnce(sh)
  {
  }
}
