/** Preparing a contact list (src/lib/campaign/list-preparation.ts): start research, poll it, check that no
    company is left, create a scoring run and score it. Every call to the server is a stage that waits
    for its answer; `Advance` says what the answer leads to. */
module ListPreparation {
  import opened Collections

  datatype RunStatus = Pending | InProgress | Completed | Partial | Failed | Cancelled

  /** A research run as polled; `quiet` when it is not paused and its worker has not been heard of for too long. */
  datatype RunView = RunView(id: string, status: RunStatus, quiet: bool)

  datatype Code = ActiveRun | NothingToDo | InvalidRetry

  datatype StartResult = StartResult(
    ok: bool, message: string, runId: Option<string>, code: Option<Code>, activeRunId: Option<string>,
    viewId: Option<string>)

  datatype FailureKind = Research | Scoring

  datatype Outcome =
    | Done(scoringRunId: string, notice: Option<string>)
    | Stop(message: string, researchRunId: Option<string>, kind: FailureKind)

  datatype Row = Row(id: string, bucket: string)

  /** What a preparation is waiting for. */
  datatype Stage =
    | Retrying
    | Starting
    | Polling(runId: string)
    | CheckingGap(runId: string, run: RunView)
    | Sleeping(runId: string)
    | CreatingRun
    | ScoringContacts(scoringRunId: string)
    | LoadingRows(scoringRunId: string, notice: Option<string>)

  datatype Reply =
    | Started(start: StartResult)
    | Polled(run: Option<RunView>)
    | GapCounted(ok: bool, needing: nat, message: string)
    | Woke
    | RunCreated(ok: bool, message: string, scoringRunId: Option<string>)
    | Scored(ok: bool, message: string, status: Option<RunStatus>)
    | RowsLoaded(ok: bool, message: string, rows: seq<Row>)

  datatype Advance = Await(stage: Stage) | Finish(outcome: Outcome)

  /** The text shown when a run stops: made of the run and of the number of companies left, if known. */
  type StopMessage = (RunView, Option<nat>) -> string

  predicate Stalled(r: RunView) {
    r.status == InProgress && r.quiet
  }

  predicate Active(r: RunView) {
    r.status == Pending || r.status == InProgress
  }

  /** Neither null nor the empty string. */
  predicate Truthy(text: Option<string>) {
    text.Some? && text.value != ""
  }

  function Or(text: Option<string>, other: Option<string>): Option<string> {
    if text.Some? then text else other
  }

  function AfterStart(start: StartResult): Advance {
    if start.ok && start.code == Some(NothingToDo) then Await(CreatingRun)
    else if !start.ok then
      if Truthy(start.activeRunId) then Await(Polling(start.activeRunId.value))
      else Finish(Stop(start.message, start.runId, Research))
    else
      var runId := Or(start.viewId, start.runId);
      if Truthy(runId) then Await(Polling(runId.value))
      else Finish(Stop(if start.message != "" then start.message else "Research did not start.", None, Research))
  }

  function AfterPoll(runId: string, polled: Option<RunView>, text: StopMessage): Advance {
    match polled
    case None => Finish(Stop("Research run was not found.", None, Research))
    case Some(run) =>
      if Active(run) && !Stalled(run) then Await(Sleeping(runId))
      else if Stalled(run) || run.status == Failed || run.status == Cancelled
      then Finish(Stop(text(run, None), Some(run.id), Research))
      else Await(CheckingGap(runId, run))
  }

  function AfterGap(runId: string, run: RunView, ok: bool, needing: nat, message: string, text: StopMessage): Advance {
    if !ok then Finish(Stop(message, Some(runId), Research))
    else if needing > 0 then Finish(Stop(text(run, Some(needing)), Some(run.id), Research))
    else Await(CreatingRun)
  }

  function AfterCreate(ok: bool, message: string, scoringRunId: Option<string>): Advance {
    if ok && Truthy(scoringRunId) then Await(ScoringContacts(scoringRunId.value))
    else Finish(Stop(message, None, FailureKind.Scoring))
  }

  function AfterScoring(scoringRunId: string, ok: bool, message: string, status: Option<RunStatus>): Advance {
    if !ok || status == Some(Failed) then Finish(Stop(message, None, FailureKind.Scoring))
    else Finish(Done(scoringRunId, if status == Some(Completed) then None else Some(message)))
  }

  /** The reply answers the call this stage is waiting for. */
  predicate Answers(stage: Stage, reply: Reply) {
    match stage
    case Retrying => reply.Started?
    case Starting => reply.Started?
    case Polling(_) => reply.Polled?
    case CheckingGap(_, _) => reply.GapCounted?
    case Sleeping(_) => reply.Woke?
    case CreatingRun => reply.RunCreated?
    case ScoringContacts(_) => reply.Scored?
    case LoadingRows(_, _) => reply.RowsLoaded?
  }

  /** What the preparation does next, while it has not been superseded. */
  function Resume(stage: Stage, reply: Reply, text: StopMessage): Advance
    requires Answers(stage, reply) && !stage.LoadingRows?
  {
    match stage
    case Retrying =>
      if !reply.start.ok && reply.start.code == Some(NothingToDo) then Await(Starting) else AfterStart(reply.start)
    case Starting => AfterStart(reply.start)
    case Polling(runId) => AfterPoll(runId, reply.run, text)
    case CheckingGap(runId, run) => AfterGap(runId, run, reply.ok, reply.needing, reply.message, text)
    case Sleeping(runId) => Await(Polling(runId))
    case CreatingRun => AfterCreate(reply.ok, reply.message, reply.scoringRunId)
    case ScoringContacts(id) => AfterScoring(id, reply.ok, reply.message, reply.status)
  }

  // ----- where each answer leads, said of the answer alone -----

  /** A started run is polled under its id, as the view or the result names it; one that is running already is polled
      as well; with nothing to research the list is scored at once. A retry with nothing to retry starts over. Anything
      else ends the preparation. */
  lemma StartReply(stage: Stage, start: StartResult, text: StopMessage)
    requires stage == Starting || stage == Retrying
    ensures
      var next := Resume(stage, Started(start), text);
      var nothing := start.code == Some(NothingToDo);
      && (next == Await(CreatingRun) <==> start.ok && nothing)
      && (next == Await(Starting) <==> stage == Retrying && !start.ok && nothing)
      && (forall id :: next == Await(Polling(id))
                       <==> && id != ""
                            && if start.ok
                               then && !nothing
                                    && (start.viewId == Some(id) || (start.viewId == None && start.runId == Some(id)))
                               else !(stage == Retrying && nothing) && start.activeRunId == Some(id))
      && (next.Await? ==> next.stage == CreatingRun || next.stage == Starting || next.stage.Polling?)
      && (next.Finish? ==>
            next.outcome
            == if !start.ok then Stop(start.message, start.runId, Research)
               else Stop(if start.message == "" then "Research did not start." else start.message, None, Research))
  {}

  /** A poll leads to the count of the companies left if and only if the run is neither pending, in progress, failed nor
      cancelled; to another poll later if and only if it is pending, or in progress and heard of; otherwise it ends
      the preparation, with the run's id if there is a run. */
  lemma PollReply(runId: string, polled: Option<RunView>, text: StopMessage)
    ensures
      var next := Resume(Polling(runId), Polled(polled), text);
      match polled
      case None => next == Finish(Stop("Research run was not found.", None, Research))
      case Some(run) =>
        && (next == Await(CheckingGap(runId, run)) <==> run.status == Completed || run.status == Partial)
        && (next == Await(Sleeping(runId)) <==> run.status == Pending || (run.status == InProgress && !run.quiet))
        && (next == Finish(Stop(text(run, None), Some(run.id), Research))
            <==> run.status == Failed || run.status == Cancelled || (run.status == InProgress && run.quiet))
  {}

  /** The list is scored if and only if the count was taken and no company is left; a count that failed ends the
      preparation with the id that was polled, companies left end it with the run's. */
  lemma GapReply(runId: string, run: RunView, ok: bool, needing: nat, message: string, text: StopMessage)
    ensures
      var next := Resume(CheckingGap(runId, run), GapCounted(ok, needing, message), text);
      && (next == Await(CreatingRun) <==> ok && needing == 0)
      && (!ok ==> next == Finish(Stop(message, Some(runId), Research)))
      && (ok && needing > 0 ==> next == Finish(Stop(text(run, Some(needing)), Some(run.id), Research)))
      && Resume(Sleeping(runId), Woke, text) == Await(Polling(runId))
  {}

  /** A scoring run is scored if and only if its creation succeeded and named it; otherwise the preparation ends. */
  lemma CreationReply(ok: bool, message: string, created: Option<string>, text: StopMessage)
    ensures
      var next := Resume(CreatingRun, RunCreated(ok, message, created), text);
      && (forall id :: next == Await(ScoringContacts(id)) <==> ok && created == Some(id) && id != "")
      && (!ok || created == None || created == Some("") ==> next == Finish(Stop(message, None, FailureKind.Scoring)))
  {}

  /** The preparation is done, with that scoring run, if and only if scoring succeeded and did not end as failed; its
      message is shown unless the scoring is complete. */
  lemma ScoringReply(id: string, ok: bool, message: string, status: Option<RunStatus>, text: StopMessage)
    ensures
      var next := Resume(ScoringContacts(id), Scored(ok, message, status), text);
      && (next == Finish(Stop(message, None, FailureKind.Scoring)) <==> !ok || status == Some(Failed))
      && (next == Finish(Done(id, None)) <==> ok && status == Some(Completed))
      && (next == Finish(Done(id, Some(message))) <==> ok && status != Some(Completed) && status != Some(Failed))
  {}

  predicate IsQualificationException(r: Row) {
    r.bucket != "GOOD"
  }
}
