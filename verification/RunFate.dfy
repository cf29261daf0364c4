/**
  What becomes of an undisturbed run, from the row it loads and the answers it
  is given: the first thing that stops it, the checkpoints and the codes request
  it leaves.  The run itself is worker/application/investigate_exception.py,
  modelled in InvestigationHandler.
*/
module RunFate {
  import opened Prelude
  import opened Rows
  import opened Checkpoints
  import opened Protocol

  /**
    What the outside answers a run: the version fetched under the control
    context, the validated and reported analysis, and what became of the two
    write-backs (None: the target was unavailable).
  */
  datatype Answers = Answers(
    gathered: Result<int, Failure>,
    analysed: Result<Analysis, Failure>,
    codes: Option<Outcome>,
    comment: Option<Outcome>)

  predicate Garbled(stored: Option<StoredOutcome>) { stored.Some? && stored.value.Unrecognised? }

  predicate Holds(stored: Option<StoredOutcome>, outcome: Outcome) {
    stored.Some? && stored.value.Recognised? && stored.value.outcome == outcome
  }

  /** What in the loaded row stops a run at once; the codes are looked at only under a recorded comment. */
  function LoadObstacle(row: Row): Option<Failure> {
    if Garbled(row.commentOutcome) then Some(Failure("invalid_write_back_checkpoint", true))
    else if Holds(row.commentOutcome, SkippedVersionConflict) then Some(Failure("write_back_rejected", true))
    else if Holds(row.commentOutcome, WriteFailed) then Some(Failure("write_back_rejected", true))
    else if row.commentOutcome.Some? && Garbled(row.codesOutcome) then Some(Failure("invalid_write_back_checkpoint", true))
    else if row.commentOutcome.Some? && Holds(row.codesOutcome, WriteFailed) then Some(Failure("write_back_rejected", true))
    else None
  }

  /** There is an analysis to produce, because none was ever stored. */
  predicate Unanalysed(row: Row) { row.analysisPersistedAt.None? && row.analysis.None? }

  predicate ReadableAnalysis(row: Row) {
    row.analysisPersistedAt.Some? && row.analysis.Some? && row.analysis.value.analysis.Some?
  }

  function AnalysisObstacle(answers: Answers, row: Row): Option<Failure> {
    if answers.gathered.Err? then Some(answers.gathered.error)
    else if ReadableAnalysis(row) then None
    else if !Unanalysed(row) then Some(Failure("invalid_analysis_checkpoint", true))
    else if answers.analysed.Err? then Some(answers.analysed.error)
    else None
  }

  function CodesObstacle(c: Config, answers: Answers, row: Row): Option<Failure> {
    if Garbled(row.codesOutcome) then Some(Failure("invalid_write_back_checkpoint", true))
    else if Holds(row.codesOutcome, WriteFailed) then Some(Failure("write_back_rejected", true))
    else if row.codesOutcome.Some? || !c.codesEnabled then None
    else if answers.codes.None? then Some(Failure("ctc_write_back_unavailable", false))
    else if answers.codes.value == WriteFailed then Some(Failure("write_back_rejected", true))
    else None
  }

  function CommentObstacle(c: Config, answers: Answers, row: Row): Option<Failure> {
    if row.commentOutcome.Some? || !c.commentEnabled then None
    else if answers.comment.None? then Some(Failure("ctc_write_back_unavailable", false))
    else if answers.comment.value == Written || answers.comment.value == SkippedDisabled then None
    else Some(Failure("write_back_rejected", true))
  }

  /** Both write-backs are recorded: a run that loads this only completes it. */
  predicate WrittenBack(row: Row) { row.commentOutcome.Some? && row.codesOutcome.Some? }

  /** The first thing that stops a run of `row`. */
  function Obstacle(c: Config, answers: Answers, row: Row): Option<Failure> {
    if LoadObstacle(row).Some? then LoadObstacle(row)
    else if WrittenBack(row) then None
    else if AnalysisObstacle(answers, row).Some? then AnalysisObstacle(answers, row)
    else if CodesObstacle(c, answers, row).Some? then CodesObstacle(c, answers, row)
    else CommentObstacle(c, answers, row)
  }

  /** A write-back outcome after which the run goes on: what is recorded, else what the target answers. */
  predicate GoesOn(stored: Option<StoredOutcome>, enabled: bool, answer: Option<Outcome>, done: set<Outcome>) {
    match stored
    case Some(Unrecognised) => false
    case Some(Recognised(outcome)) => outcome in done
    case None => enabled ==> answer.Some? && answer.value in done
  }

  /** Every outcome, recorded or answered, lets the run go on, and it has an analysis unless it needs none. */
  predicate CanSucceed(c: Config, answers: Answers, row: Row) {
    && GoesOn(row.codesOutcome, c.codesEnabled, answers.codes, {Written, SkippedVersionConflict, SkippedDisabled})
    && GoesOn(row.commentOutcome, c.commentEnabled, answers.comment, {Written, SkippedDisabled})
    && (WrittenBack(row) || (answers.gathered.Ok? && (ReadableAnalysis(row) || (Unanalysed(row) && answers.analysed.Ok?))))
  }

  /** When nothing stops a run; and of what does, only the outside's own failures can be transient. */
  lemma NothingStops(c: Config, answers: Answers, row: Row)
    ensures Obstacle(c, answers, row).None? <==> CanSucceed(c, answers, row)
    ensures var obstacle := Obstacle(c, answers, row);
            obstacle.Some? && !obstacle.value.permanent ==>
              || answers.gathered == Err(obstacle.value)
              || answers.analysed == Err(obstacle.value)
              || (answers.codes.None? && c.codesEnabled)
              || (answers.comment.None? && c.commentEnabled)
  {
  }

  /** The obstacles are what the run's own reading of its checkpoints finds. */
  lemma ObstaclesAreRead(row: Row, worker: WorkerId)
    requires row.workerId == Some(worker)
    ensures LoadObstacle(row).Some? ==> AfterLoad(Some(row), worker) == FailReading(LoadObstacle(row).value)
    ensures LoadObstacle(row).None? ==> AfterLoad(Some(row), worker) == if WrittenBack(row) then Completing else Gathering(row)
  {
  }

  /** The run gets past its loading, and not by the early exit. */
  predicate Starts(row: Row) { LoadObstacle(row).None? && !WrittenBack(row) }

  /** Whether the analysis columns hold a new analysis afterwards. */
  predicate AnalysisStep(written: bool, answers: Answers, row: Row, after: Row) {
    if written then
      && answers.gathered.Ok? && answers.analysed.Ok?
      && after.analysis == Some(Checkpoint(Some(answers.analysed.value), Some(answers.gathered.value)))
      && after.analysisPersistedAt.Some?
    else after.analysis == row.analysis && after.analysisPersistedAt == row.analysisPersistedAt
  }

  predicate CodesStep(written: bool, c: Config, answers: Answers, row: Row, after: Row) {
    if written then
      if c.codesEnabled
      then answers.codes.Some? && after.codesOutcome == Some(Recognised(answers.codes.value))
      else after.codesOutcome == Some(Recognised(SkippedDisabled))
    else after.codesOutcome == row.codesOutcome
  }

  predicate CommentStep(written: bool, c: Config, answers: Answers, row: Row, after: Row) {
    if written then
      if c.commentEnabled
      then answers.comment.Some? && after.commentOutcome == Some(Recognised(answers.comment.value))
      else after.commentOutcome == Some(Recognised(SkippedDisabled))
    else after.commentOutcome == row.commentOutcome
  }

  predicate ProducesAnalysis(answers: Answers, row: Row) {
    answers.gathered.Ok? && Unanalysed(row) && answers.analysed.Ok?
  }

  predicate ProducesCodes(c: Config, answers: Answers, row: Row) {
    row.codesOutcome.None? && (c.codesEnabled ==> answers.codes.Some?)
  }

  predicate ProducesComment(c: Config, answers: Answers, row: Row) {
    row.commentOutcome.None? && (c.commentEnabled ==> answers.comment.Some?)
  }

  /**
    What a run that loads `row` leaves in the checkpoint columns: each is
    written iff there is something to write and nothing stops the run before,
    even when what is written then stops it.
  */
  predicate CheckpointsAfter(c: Config, answers: Answers, row: Row, after: Row) {
    var analysed := Starts(row) && AnalysisObstacle(answers, row).None?;
    && after.attemptCount == row.attemptCount
    && AnalysisStep(Starts(row) && ProducesAnalysis(answers, row), answers, row, after)
    && CodesStep(analysed && ProducesCodes(c, answers, row), c, answers, row, after)
    && CommentStep(analysed && CodesObstacle(c, answers, row).None? && ProducesComment(c, answers, row), c, answers, row, after)
  }

  /** Both outcomes are recorded, and the analysis is, unless both already were. */
  predicate FullyRecorded(row: Row, after: Row) {
    && Done(after.codesOutcome, {Written, SkippedVersionConflict, SkippedDisabled})
    && Done(after.commentOutcome, {Written, SkippedDisabled})
    && (ReadableAnalysis(after) || WrittenBack(row))
  }

  lemma SuccessIsRecorded(c: Config, answers: Answers, row: Row, after: Row)
    ensures CanSucceed(c, answers, row) && CheckpointsAfter(c, answers, row, after) ==> FullyRecorded(row, after)
  {
    NothingStops(c, answers, row);
  }

  /** The checkpoint columns and the attempt count are the same. */
  predicate SameCheckpoints(a: Row, b: Row) {
    && a.attemptCount == b.attemptCount
    && a.analysis == b.analysis && a.analysisPersistedAt == b.analysisPersistedAt
    && a.codesOutcome == b.codesOutcome && a.commentOutcome == b.commentOutcome
  }

  /** The codes requests such a run sends: none, or one with the checkpoint's version and the analysis's codes. */
  function Requests(c: Config, answers: Answers, row: Row): set<CodesWrite> {
    if Starts(row) && AnalysisObstacle(answers, row).None? && row.codesOutcome.None? && c.codesEnabled then
      var analysis := if ReadableAnalysis(row) then row.analysis.value.analysis.value else answers.analysed.value;
      var version := if ReadableAnalysis(row) && row.analysis.value.version.Some? then row.analysis.value.version.value
                     else answers.gathered.value;
      {CodesWrite(version, analysis.reasonCode, analysis.resolutionCode)}
    else {}
  }

  /** A run depends on the checkpoint columns only, and so does what is said of it. */
  lemma SameFate(c: Config, answers: Answers, row: Row, loaded: Row, left: Row, after: Row)
    requires SameCheckpoints(row, loaded) && SameCheckpoints(left, after)
    ensures LoadObstacle(loaded) == LoadObstacle(row) && Obstacle(c, answers, loaded) == Obstacle(c, answers, row)
    ensures Requests(c, answers, loaded) == Requests(c, answers, row) && Starts(loaded) == Starts(row)
    ensures CheckpointsAfter(c, answers, loaded, left) ==> CheckpointsAfter(c, answers, row, after)
  {
  }

  lemma CountDoesNotMatter(c: Config, answers: Answers, row: Row, next: Row)
    requires next == row.(attemptCount := next.attemptCount)
    ensures Requests(c, answers, next) == Requests(c, answers, row)
    ensures CanSucceed(c, answers, row) <==> Obstacle(c, answers, next).None?
  {
    NothingStops(c, answers, next);
  }

  /** The three parts of a run that starts, put together. */
  lemma PartsOfARun(c: Config, answers: Answers, row: Row, analysed: Row, coded: Row, commented: Row)
    requires Starts(row)
    requires analysed.attemptCount == row.attemptCount
    requires analysed.codesOutcome == row.codesOutcome && analysed.commentOutcome == row.commentOutcome
    requires AnalysisStep(ProducesAnalysis(answers, row), answers, row, analysed)
    requires SameCheckpoints(analysed, coded.(codesOutcome := analysed.codesOutcome))
    requires SameCheckpoints(coded, commented.(commentOutcome := coded.commentOutcome))
    ensures AnalysisObstacle(answers, row).Some? ==>
              Obstacle(c, answers, row) == AnalysisObstacle(answers, row) && CheckpointsAfter(c, answers, row, analysed)
              && Requests(c, answers, row) == {}
    ensures CodesObstacle(c, answers, analysed) == CodesObstacle(c, answers, row)
    ensures CommentObstacle(c, answers, coded) == CommentObstacle(c, answers, row)
    ensures AnalysisObstacle(answers, row).None? && CodesStep(ProducesCodes(c, answers, analysed), c, answers, analysed, coded) ==>
              && (CodesObstacle(c, answers, row).Some? ==>
                    Obstacle(c, answers, row) == CodesObstacle(c, answers, row) && CheckpointsAfter(c, answers, row, coded))
              && (CodesObstacle(c, answers, row).None? && CommentStep(ProducesComment(c, answers, coded), c, answers, coded, commented) ==>
                    Obstacle(c, answers, row) == CommentObstacle(c, answers, row) && CheckpointsAfter(c, answers, row, commented))
  {
  }

  /** A run that does not start writes nothing. */
  lemma NotStarted(c: Config, answers: Answers, row: Row)
    requires !Starts(row)
    ensures Obstacle(c, answers, row) == LoadObstacle(row)
    ensures CheckpointsAfter(c, answers, row, row) && Requests(c, answers, row) == {}
  {
  }
}
