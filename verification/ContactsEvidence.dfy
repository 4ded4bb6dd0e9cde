/** What must have happened before a list is shown as prepared. */
module ContactsEvidence {
  import opened Collections
  import opened ListPreparation
  import opened ContactsProtocol

  function Before(es: seq<Event>, i: nat, text: StopMessage): State
    requires i <= |es|
  {
    After(INITIAL, es[..i], text)
  }

  /** Event `i` answers what preparation `ticket`, then the newest, was waiting for at `stage`. */
  ghost predicate AnswerAt(es: seq<Event>, i: nat, text: StopMessage, ticket: nat, stage: Stage, reply: Reply) {
    && i < |es| && es[i] == Settles(ticket, reply) && Answers(stage, reply)
    && var s := Before(es, i, text); ticket == s.generation && ticket in s.tasks && s.tasks[ticket].stage == stage
  }

  /** The server said that there was nothing to research. */
  predicate NothingToResearch(reply: Reply) {
    reply.Started? && reply.start.ok && reply.start.code == Some(NothingToDo)
  }

  /** The server said that no company is left. */
  predicate NoneLeft(reply: Reply) {
    reply.GapCounted? && reply.ok && reply.needing == 0
  }

  ghost predicate PolledAt(es: seq<Event>, i: nat, text: StopMessage, ticket: nat, runId: string, run: RunView) {
    AnswerAt(es, i, text, ticket, Polling(runId), Polled(Some(run)))
  }

  /** The research run was polled and had run to its end: neither failed nor cancelled, nor given up as stalled. */
  ghost predicate RanToEnd(es: seq<Event>, text: StopMessage, ticket: nat, runId: string, run: RunView, before: nat) {
    && (run.status == Completed || run.status == Partial)
    && exists i: nat :: i < before && PolledAt(es, i, text, ticket, runId, run)
  }

  ghost predicate CountedAt(es: seq<Event>, i: nat, text: StopMessage, ticket: nat) {
    exists runId, run, reply :: AnswerAt(es, i, text, ticket, CheckingGap(runId, run), reply) && NoneLeft(reply)
      && RanToEnd(es, text, ticket, runId, run, i)
  }

  /** There was nothing to research, or a run had ended and no company was left. */
  ghost predicate ResearchedAt(es: seq<Event>, i: nat, text: StopMessage, ticket: nat) {
    || (exists stage, reply :: AnswerAt(es, i, text, ticket, stage, reply) && NothingToResearch(reply))
    || CountedAt(es, i, text, ticket)
  }

  ghost predicate CreatedAt(es: seq<Event>, i: nat, text: StopMessage, ticket: nat, id: string) {
    exists message :: AnswerAt(es, i, text, ticket, CreatingRun, RunCreated(true, message, Some(id)))
  }

  ghost predicate ScoredAt(es: seq<Event>, i: nat, text: StopMessage, ticket: nat, id: string) {
    exists message, status :: status != Some(Failed)
      && AnswerAt(es, i, text, ticket, ScoringContacts(id), Scored(true, message, status))
  }

  /** The rows on screen are the exceptions among those the server sent for this scoring run. */
  ghost predicate LoadedAt(es: seq<Event>, i: nat, text: StopMessage, ticket: nat, id: string, shown: seq<Row>) {
    exists notice, message, rows :: shown == Select(rows, IsQualificationException)
      && AnswerAt(es, i, text, ticket, LoadingRows(id, notice), RowsLoaded(true, message, rows))
  }

  ghost predicate RunExists(es: seq<Event>, text: StopMessage, ticket: nat, id: string, before: nat) {
    exists i: nat, j: nat :: i < j < before && ResearchedAt(es, i, text, ticket) && CreatedAt(es, j, text, ticket, id)
  }

  ghost predicate RunScored(es: seq<Event>, text: StopMessage, ticket: nat, id: string, before: nat) {
    exists k: nat :: k < before && RunExists(es, text, ticket, id, k) && ScoredAt(es, k, text, ticket, id)
  }

  /** Research, then a scoring run, then its scores, then its rows: all by this one preparation, in this order. */
  ghost predicate FullyPrepared(es: seq<Event>, text: StopMessage, ticket: nat, id: string, shown: seq<Row>) {
    exists m: nat :: m < |es| && RunScored(es, text, ticket, id, m) && LoadedAt(es, m, text, ticket, id, shown)
  }

  // ----- what happened at a position does not depend on what happens later -----

  lemma AnswerPersists(es: seq<Event>, i: nat, text: StopMessage, ticket: nat, stage: Stage, reply: Reply)
    requires es != [] && AnswerAt(es[..|es| - 1], i, text, ticket, stage, reply)
    ensures AnswerAt(es, i, text, ticket, stage, reply)
  {
    assert es[..|es| - 1][..i] == es[..i];
  }

  lemma EndPersists(es: seq<Event>, text: StopMessage, ticket: nat, runId: string, run: RunView, before: nat)
    requires es != [] && RanToEnd(es[..|es| - 1], text, ticket, runId, run, before)
    ensures RanToEnd(es, text, ticket, runId, run, before)
  {
    var i: nat :| i < before && PolledAt(es[..|es| - 1], i, text, ticket, runId, run);
    AnswerPersists(es, i, text, ticket, Polling(runId), Polled(Some(run)));
    assert PolledAt(es, i, text, ticket, runId, run);
  }

  lemma ResearchPersists(es: seq<Event>, i: nat, text: StopMessage, ticket: nat)
    requires es != [] && ResearchedAt(es[..|es| - 1], i, text, ticket)
    ensures ResearchedAt(es, i, text, ticket)
  {
    var pre := es[..|es| - 1];
    if stage, reply :| AnswerAt(pre, i, text, ticket, stage, reply) && NothingToResearch(reply) {
      AnswerPersists(es, i, text, ticket, stage, reply);
    } else {
      var runId, run, reply :| AnswerAt(pre, i, text, ticket, CheckingGap(runId, run), reply) && NoneLeft(reply)
        && RanToEnd(pre, text, ticket, runId, run, i);
      AnswerPersists(es, i, text, ticket, CheckingGap(runId, run), reply);
      EndPersists(es, text, ticket, runId, run, i);
    }
  }

  lemma CreationPersists(es: seq<Event>, i: nat, text: StopMessage, ticket: nat, id: string)
    requires es != [] && CreatedAt(es[..|es| - 1], i, text, ticket, id)
    ensures CreatedAt(es, i, text, ticket, id)
  {
    var message :| AnswerAt(es[..|es| - 1], i, text, ticket, CreatingRun, RunCreated(true, message, Some(id)));
    AnswerPersists(es, i, text, ticket, CreatingRun, RunCreated(true, message, Some(id)));
  }

  lemma ScoringPersists(es: seq<Event>, i: nat, text: StopMessage, ticket: nat, id: string)
    requires es != [] && ScoredAt(es[..|es| - 1], i, text, ticket, id)
    ensures ScoredAt(es, i, text, ticket, id)
  {
    var message, status :| status != Some(Failed)
      && AnswerAt(es[..|es| - 1], i, text, ticket, ScoringContacts(id), Scored(true, message, status));
    AnswerPersists(es, i, text, ticket, ScoringContacts(id), Scored(true, message, status));
  }

  lemma LoadPersists(es: seq<Event>, i: nat, text: StopMessage, ticket: nat, id: string, shown: seq<Row>)
    requires es != [] && LoadedAt(es[..|es| - 1], i, text, ticket, id, shown)
    ensures LoadedAt(es, i, text, ticket, id, shown)
  {
    var notice, message, rows :| shown == Select(rows, IsQualificationException)
      && AnswerAt(es[..|es| - 1], i, text, ticket, LoadingRows(id, notice), RowsLoaded(true, message, rows));
    AnswerPersists(es, i, text, ticket, LoadingRows(id, notice), RowsLoaded(true, message, rows));
  }

  lemma RunExistsPersists(es: seq<Event>, text: StopMessage, ticket: nat, id: string, before: nat)
    requires es != [] && RunExists(es[..|es| - 1], text, ticket, id, before)
    ensures RunExists(es, text, ticket, id, before)
  {
    var pre := es[..|es| - 1];
    var i: nat, j: nat :| i < j < before && ResearchedAt(pre, i, text, ticket) && CreatedAt(pre, j, text, ticket, id);
    ResearchPersists(es, i, text, ticket);
    CreationPersists(es, j, text, ticket, id);
  }

  lemma RunScoredPersists(es: seq<Event>, text: StopMessage, ticket: nat, id: string, before: nat)
    requires es != [] && RunScored(es[..|es| - 1], text, ticket, id, before)
    ensures RunScored(es, text, ticket, id, before)
  {
    var pre := es[..|es| - 1];
    var k: nat :| k < before && RunExists(pre, text, ticket, id, k) && ScoredAt(pre, k, text, ticket, id);
    RunExistsPersists(es, text, ticket, id, k);
    ScoringPersists(es, k, text, ticket, id);
  }

  lemma PreparationPersists(es: seq<Event>, text: StopMessage, ticket: nat, id: string, shown: seq<Row>)
    requires es != [] && FullyPrepared(es[..|es| - 1], text, ticket, id, shown)
    ensures FullyPrepared(es, text, ticket, id, shown)
  {
    var pre := es[..|es| - 1];
    var m: nat :| m < |pre| && RunScored(pre, text, ticket, id, m) && LoadedAt(pre, m, text, ticket, id, shown);
    RunScoredPersists(es, text, ticket, id, m);
    LoadPersists(es, m, text, ticket, id, shown);
  }

  // ----- the history behind a stage -----

  ghost predicate Traced(es: seq<Event>, text: StopMessage, ticket: nat, stage: Stage) {
    match stage
    case CheckingGap(runId, run) => RanToEnd(es, text, ticket, runId, run, |es|)
    case CreatingRun => exists i: nat :: i < |es| && ResearchedAt(es, i, text, ticket)
    case ScoringContacts(id) => RunExists(es, text, ticket, id, |es|)
    case LoadingRows(id, _) => RunScored(es, text, ticket, id, |es|)
    case _ => true
  }

  lemma LaterRunExists(es: seq<Event>, text: StopMessage, ticket: nat, id: string, before: nat, later: nat)
    requires RunExists(es, text, ticket, id, before) && before <= later
    ensures RunExists(es, text, ticket, id, later)
  {
    var i: nat, j: nat :| i < j < before && ResearchedAt(es, i, text, ticket) && CreatedAt(es, j, text, ticket, id);
    assert i < j < later;
  }

  lemma LaterRunScored(es: seq<Event>, text: StopMessage, ticket: nat, id: string, before: nat, later: nat)
    requires RunScored(es, text, ticket, id, before) && before <= later
    ensures RunScored(es, text, ticket, id, later)
  {
    var k: nat :| k < before && RunExists(es, text, ticket, id, k) && ScoredAt(es, k, text, ticket, id);
    assert k < later;
  }

  lemma TraceExtends(es: seq<Event>, text: StopMessage, ticket: nat, stage: Stage)
    requires es != [] && Traced(es[..|es| - 1], text, ticket, stage)
    ensures Traced(es, text, ticket, stage)
  {
    var n := |es| - 1;
    match stage
    case CheckingGap(runId, run) => EndPersists(es, text, ticket, runId, run, n);
    case CreatingRun =>
      var i: nat :| i < n && ResearchedAt(es[..n], i, text, ticket);
      ResearchPersists(es, i, text, ticket);
    case ScoringContacts(id) =>
      RunExistsPersists(es, text, ticket, id, n);
      LaterRunExists(es, text, ticket, id, n, n + 1);
    case LoadingRows(id, _) =>
      RunScoredPersists(es, text, ticket, id, n);
      LaterRunScored(es, text, ticket, id, n, n + 1);
    case _ =>
  }

  /** A preparation reaches a later stage only through the answer that leads there. */
  ghost predicate Enters(stage: Stage, reply: Reply, next: Stage) {
    match next
    case CheckingGap(runId, run) =>
      stage == Polling(runId) && reply == Polled(Some(run)) && (run.status == Completed || run.status == Partial)
    case CreatingRun =>
      ((stage == Starting || stage == Retrying) && NothingToResearch(reply)) || (stage.CheckingGap? && NoneLeft(reply))
    case ScoringContacts(id) => stage == CreatingRun && reply.RunCreated? && reply.ok && reply.scoringRunId == Some(id)
    case LoadingRows(id, _) => stage == ScoringContacts(id) && reply.Scored? && reply.ok && reply.status != Some(Failed)
    case _ => true
  }

  function NextStage(a: Advance): Option<Stage> {
    match a
    case Await(stage) => Some(stage)
    case Finish(Done(id, notice)) => Some(LoadingRows(id, notice))
    case Finish(Stop(_, _, _)) => None
  }

  lemma ResumeEnters(stage: Stage, reply: Reply, text: StopMessage)
    requires Answers(stage, reply) && !stage.LoadingRows?
    ensures
      var next := NextStage(Resume(stage, reply, text));
      next.Some? ==> Enters(stage, reply, next.value)
  {}

  lemma StageEntered(s: State, e: Event, text: StopMessage, ticket: nat)
    requires ticket in Step(s, e, text).tasks
    requires !(ticket in s.tasks && s.tasks[ticket] == Step(s, e, text).tasks[ticket])
    ensures
      var next := Step(s, e, text).tasks[ticket].stage;
      || next == Starting || next == Retrying
      || (&& e.Settles? && e.ticket == ticket && ticket == s.generation && ticket in s.tasks
          && Answers(s.tasks[ticket].stage, e.reply) && Enters(s.tasks[ticket].stage, e.reply, next))
  {
    match e
    case Prepare(_) =>
    case Retry =>
    case Throws(_) =>
    case Settles(k, reply) =>
      if k in s.tasks && Answers(s.tasks[k].stage, reply) && !s.tasks[k].stage.LoadingRows? {
        ResumeEnters(s.tasks[k].stage, reply, text);
      }
  }

  lemma EntryIsTraced(es: seq<Event>, text: StopMessage, ticket: nat, stage: Stage, reply: Reply, next: Stage)
    requires es != [] && Traced(es, text, ticket, stage)
    requires AnswerAt(es, |es| - 1, text, ticket, stage, reply) && Enters(stage, reply, next)
    requires Traced(es[..|es| - 1], text, ticket, stage)
    ensures Traced(es, text, ticket, next)
  {
    var n := |es| - 1;
    match next
    case CheckingGap(runId, run) => assert PolledAt(es, n, text, ticket, runId, run);
    case CreatingRun =>
      if stage.CheckingGap? {
        EndPersists(es, text, ticket, stage.runId, stage.run, n);
        assert CountedAt(es, n, text, ticket);
      }
      assert ResearchedAt(es, n, text, ticket);
    case ScoringContacts(id) =>
      var i: nat :| i < n && ResearchedAt(es[..n], i, text, ticket);
      ResearchPersists(es, i, text, ticket);
      assert reply == RunCreated(true, reply.message, Some(id));
      assert CreatedAt(es, n, text, ticket, id);
      assert i < n < |es|;
    case LoadingRows(id, _) =>
      RunExistsPersists(es, text, ticket, id, n);
      assert reply == Scored(true, reply.message, reply.status);
      assert ScoredAt(es, n, text, ticket, id);
    case _ =>
  }

  lemma {:induction false} StagesAreTraced(es: seq<Event>, text: StopMessage, ticket: nat)
    requires ticket in After(INITIAL, es, text).tasks
    ensures Traced(es, text, ticket, After(INITIAL, es, text).tasks[ticket].stage)
  {
    assert es != [];
    var n := |es| - 1;
    var s, t := After(INITIAL, es[..n], text), After(INITIAL, es, text);
    if ticket in s.tasks { StagesAreTraced(es[..n], text, ticket); }
    if ticket in s.tasks && s.tasks[ticket] == t.tasks[ticket] {
      TraceExtends(es, text, ticket, t.tasks[ticket].stage);
    } else {
      StageEntered(s, es[n], text, ticket);
      var next := t.tasks[ticket].stage;
      if next != Starting && next != Retrying {
        TraceExtends(es, text, ticket, s.tasks[ticket].stage);
        EntryIsTraced(es, text, ticket, s.tasks[ticket].stage, es[n].reply, next);
      }
    }
  }

  // ----- the result -----

  lemma ReadyEntered(s: State, e: Event, text: StopMessage)
    requires Step(s, e, text).phase == Ready
    requires !(s.phase == Ready && Step(s, e, text).generation == s.generation && Seen(Step(s, e, text)) == Seen(s))
    ensures
      var t := Step(s, e, text);
      && e.Settles? && e.ticket == s.generation == t.generation && e.ticket in s.tasks
      && s.tasks[e.ticket].stage.LoadingRows? && e.reply.RowsLoaded? && e.reply.ok
      && t.scoringRunId == Some(s.tasks[e.ticket].stage.scoringRunId)
      && t.contactRows == Select(e.reply.rows, IsQualificationException)
  {
    match e
    case Prepare(_) =>
    case Retry =>
    case Throws(_) =>
    case Settles(_, _) =>
  }

  /** In every run: a list is shown as prepared only if the newest preparation itself was told that there was nothing to
      research, or polled a research run that had ended completed or partial and then was told that no company was
      left; then created a scoring run, then scored it, then loaded its rows; and
      what is shown is that run and the rows of that answer that are no match. */
  lemma {:induction false} ReadyOnlyWhenPrepared(es: seq<Event>, text: StopMessage)
    requires After(INITIAL, es, text).phase == Ready
    ensures
      var s := After(INITIAL, es, text);
      s.scoringRunId.Some? && FullyPrepared(es, text, s.generation, s.scoringRunId.value, s.contactRows)
  {
    assert es != [];
    var n := |es| - 1;
    var s, t := After(INITIAL, es[..n], text), After(INITIAL, es, text);
    if s.phase == Ready && t.generation == s.generation && Seen(t) == Seen(s) {
      ReadyOnlyWhenPrepared(es[..n], text);
      PreparationPersists(es, text, t.generation, t.scoringRunId.value, t.contactRows);
    } else {
      ReadyEntered(s, es[n], text);
      LoadIsEvidence(es, text, s.tasks[s.generation].stage, es[n].reply);
    }
  }

  lemma LoadIsEvidence(es: seq<Event>, text: StopMessage, stage: Stage, reply: Reply)
    requires es != [] && stage.LoadingRows? && reply.RowsLoaded? && reply.ok
    requires AnswerAt(es, |es| - 1, text, After(INITIAL, es[..|es| - 1], text).generation, stage, reply)
    ensures FullyPrepared(es, text, After(INITIAL, es[..|es| - 1], text).generation, stage.scoringRunId,
                          Select(reply.rows, IsQualificationException))
  {
    var n := |es| - 1;
    var ticket, id := After(INITIAL, es[..n], text).generation, stage.scoringRunId;
    StagesAreTraced(es[..n], text, ticket);
    RunScoredPersists(es, text, ticket, id, n);
    assert reply == RowsLoaded(true, reply.message, reply.rows);
    assert LoadedAt(es, n, text, ticket, id, Select(reply.rows, IsQualificationException));
  }
}
