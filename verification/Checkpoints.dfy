/**
  How a run reads the durable checkpoints of its row
  (worker/application/investigation_checkpoints.py).  A raised
  PermanentInvestigationError is an `Err` carrying its error code.
*/
module Checkpoints {
  import opened Prelude
  import opened Rows

  const COMMENT_DONE: set<Outcome> := {Written, SkippedDisabled}
  const CODES_DONE: set<Outcome> := {Written, SkippedVersionConflict, SkippedDisabled}

  function AnalysisFromCheckpoint(payload: Option<Checkpoint>): Result<Analysis, string> {
    if payload.Some? && payload.value.analysis.Some? then
      Ok(payload.value.analysis.value)
    else
      Err("invalid_analysis_checkpoint")
  }

  /** The version a codes write carries: the persisted one, else the fetched one. */
  function CheckpointVersion(state: Row, fetchedVersion: int): int {
    if && state.analysisPersistedAt.Some?
       && state.analysis.Some?
       && state.analysis.value.version.Some?
    then state.analysis.value.version.value
    else fetchedVersion
  }

  /** None: nothing recorded.  Err: the recorded outcome does not count as done. */
  function CompletedCheckpoint(stored: Option<StoredOutcome>, allowed: set<Outcome>): Result<Option<Outcome>, string> {
    match stored
    case None => Ok(None)
    case Some(Unrecognised) => Err("invalid_write_back_checkpoint")
    case Some(Recognised(outcome)) =>
      if outcome in allowed then Ok(Some(outcome)) else Err("write_back_rejected")
  }

  /** The comment checkpoint is read first, and the codes one only when the comment is done. */
  function WriteBackComplete(state: Row): Result<bool, string> {
    match CompletedCheckpoint(state.commentOutcome, COMMENT_DONE)
    case Err(e) => Err(e)
    case Ok(None) => Ok(false)
    case Ok(Some(_)) =>
      match CompletedCheckpoint(state.codesOutcome, CODES_DONE)
      case Err(e) => Err(e)
      case Ok(codes) => Ok(codes.Some?)
  }

  predicate Done(stored: Option<StoredOutcome>, allowed: set<Outcome>) {
    stored.Some? && stored.value.Recognised? && stored.value.outcome in allowed
  }

  /** The early exit is taken exactly when both write-backs are recorded as done. */
  lemma WriteBackCompleteMeansBothDone(state: Row)
    ensures WriteBackComplete(state) == Ok(true)
            <==> Done(state.commentOutcome, COMMENT_DONE) && Done(state.codesOutcome, CODES_DONE)
  {
  }

  datatype AnalysisPlan = Reuse(analysis: Analysis) | Analyze | Reject(errorCode: string)

  /** The branch at the head of `_resolve_analysis`. */
  function PlanAnalysis(state: Row): AnalysisPlan {
    if state.analysisPersistedAt.Some? then
      match AnalysisFromCheckpoint(state.analysis)
      case Ok(a) => Reuse(a)
      case Err(e) => Reject(e)
    else if state.analysis.Some? then
      Reject("invalid_analysis_checkpoint")
    else
      Analyze
  }
}
