/** The list preparation screen (src/components/CampaignContactsManager.tsx) as a state and the effect of
    each event. Each press takes a new ticket; a preparation whose ticket is no longer the newest stops at
    its next answer. Answers arrive in any order, and any call may throw. */
module ContactsProtocol {
  import opened Collections
  import opened ListPreparation

  datatype Phase = Idle | Running | Error | Ready

  datatype Task = Task(listId: string, stage: Stage)

  /** `rejected` remembers the tickets whose preparation ended in a throw. */
  datatype State = State(
    generation: nat, phase: Phase, selectedListId: Option<string>, errorMessage: Option<string>,
    notice: Option<string>, failureKind: Option<FailureKind>, researchRunId: Option<string>,
    scoringRunId: Option<string>, contactRows: seq<Row>, tasks: map<nat, Task>, rejected: set<nat>)

  datatype Event = Prepare(listId: string) | Retry | Settles(ticket: nat, reply: Reply) | Throws(ticket: nat)

  const INITIAL := State(0, Idle, None, None, None, None, None, None, [], map[], {})

  function Prepared(s: State, listId: string): State {
    var ticket := s.generation + 1;
    State(ticket, Running, Some(listId), None, None, None, None, None, [],
          s.tasks[ticket := Task(listId, Starting)], s.rejected)
  }

  /** A retry keeps the failed run's id and the results on screen. */
  function Retried(s: State): State {
    if !Truthy(s.selectedListId) then s
    else
      var ticket := s.generation + 1;
      var stage := if Truthy(s.researchRunId) then Retrying else Starting;
      s.(generation := ticket, phase := Running, errorMessage := None, notice := None,
         tasks := s.tasks[ticket := Task(s.selectedListId.value, stage)])
  }

  function Failing(s: State, message: string, kind: FailureKind): State {
    s.(failureKind := Some(kind), errorMessage := Some(message), notice := None, scoringRunId := None,
       contactRows := [], phase := Error)
  }

  function Stopped(s: State, o: Outcome): State
    requires o.Stop?
  {
    Failing(s, o.message, o.kind).(researchRunId := o.researchRunId)
  }

  function Loaded(s: State, scoringRunId: string, notice: Option<string>, reply: Reply): State
    requires reply.RowsLoaded?
  {
    if !reply.ok then Failing(s, reply.message, FailureKind.Scoring)
    else s.(researchRunId := None, failureKind := None, errorMessage := None, notice := notice,
            scoringRunId := Some(scoringRunId), contactRows := Select(reply.rows, IsQualificationException), phase := Ready)
  }

  /** The newest preparation goes on: to its next call, or to what its outcome shows. */
  function Continued(s: State, ticket: nat, task: Task, next: Advance): State {
    match next
    case Await(stage) => s.(tasks := s.tasks[ticket := task.(stage := stage)])
    case Finish(Done(id, notice)) => s.(tasks := s.tasks[ticket := task.(stage := LoadingRows(id, notice))])
    case Finish(Stop(_, _, _)) => Stopped(s, next.outcome)
  }

  function Settled(s: State, ticket: nat, reply: Reply, text: StopMessage): State {
    if ticket !in s.tasks || !Answers(s.tasks[ticket].stage, reply) then s
    else
      var task, t := s.tasks[ticket], s.(tasks := s.tasks - {ticket});
      if ticket != s.generation then t
      else match task.stage
        case LoadingRows(id, notice) => Loaded(t, id, notice, reply)
        case _ => Continued(t, ticket, task, Resume(task.stage, reply, text))
  }

  function Threw(s: State, ticket: nat): State {
    if ticket !in s.tasks then s else s.(tasks := s.tasks - {ticket}, rejected := s.rejected + {ticket})
  }

  function Step(s: State, e: Event, text: StopMessage): State {
    match e
    case Prepare(listId) => Prepared(s, listId)
    case Retry => Retried(s)
    case Settles(ticket, reply) => Settled(s, ticket, reply, text)
    case Throws(ticket) => Threw(s, ticket)
  }

  function After(s: State, es: seq<Event>, text: StopMessage): State {
    if es == [] then s else Step(After(s, es[..|es| - 1], text), es[|es| - 1], text)
  }

  /** The buttons the screen shows. */
  predicate Offered(s: State, e: Event, readOnly: bool) {
    match e
    case Prepare(_) => !readOnly && s.phase != Running
    case Retry => !readOnly && s.phase == Error && Truthy(s.errorMessage) && s.failureKind == Some(Research)
    case _ => true
  }

  // ----- the ticket invariant -----

  /** The screen says "running" exactly while the newest preparation is in flight, or after it threw. */
  ghost predicate Tickets(s: State) {
    && (forall k :: k in s.tasks || k in s.rejected ==> 1 <= k <= s.generation)
    && (s.phase == Idle <==> s.generation == 0)
    && (s.phase == Running <==> s.generation in s.tasks || s.generation in s.rejected)
    && (forall k :: k in s.tasks ==> k !in s.rejected)
    && (s.generation in s.tasks ==> s.selectedListId == Some(s.tasks[s.generation].listId))
  }

  lemma SettlingKeepsTickets(s: State, ticket: nat, reply: Reply, text: StopMessage)
    requires Tickets(s)
    ensures Tickets(Settled(s, ticket, reply, text))
  {}

  lemma StepKeepsTickets(s: State, e: Event, text: StopMessage)
    requires Tickets(s)
    ensures Tickets(Step(s, e, text))
  {
    match e
    case Prepare(_) =>
    case Retry =>
    case Settles(ticket, reply) => SettlingKeepsTickets(s, ticket, reply, text);
    case Throws(_) =>
  }

  /** In every run, whatever is pressed and however answers interleave: the screen runs exactly while the
      newest preparation is in flight or has thrown; once it has settled the screen shows an error or the
      result. */
  lemma {:induction false} RunKeepsTickets(es: seq<Event>, text: StopMessage)
    ensures
      var s := After(INITIAL, es, text);
      && Tickets(s)
      && (s.generation > 0 && s.generation !in s.tasks && s.generation !in s.rejected ==>
            s.phase == Error || s.phase == Ready)
  {
    if es != [] {
      RunKeepsTickets(es[..|es| - 1], text);
      StepKeepsTickets(After(INITIAL, es[..|es| - 1], text), es[|es| - 1], text);
    }
  }

  // ----- what each event shows -----

  /** Picking a list clears the screen and starts its preparation; trying again keeps what is on screen but the texts, and
      retries the failed run if one is known. Both take the next ticket. */
  lemma PressesShow(s: State, listId: string, text: StopMessage)
    ensures
      Step(s, Prepare(listId), text)
      == s.(generation := s.generation + 1, phase := Running, selectedListId := Some(listId), errorMessage := None,
            notice := None, failureKind := None, researchRunId := None, scoringRunId := None, contactRows := [],
            tasks := s.tasks[s.generation + 1 := Task(listId, Starting)])
    ensures
      Step(s, Retry, text)
      == if s.selectedListId == None || s.selectedListId == Some("") then s
         else s.(generation := s.generation + 1, phase := Running, errorMessage := None, notice := None,
                 tasks := s.tasks[s.generation + 1 :=
                   Task(s.selectedListId.value,
                        if s.researchRunId == None || s.researchRunId == Some("") then Starting else Retrying)])
  {}

  /** An answer for the newest preparation: its outcome decides whether it waits for the next call, or shows the
      error, its kind and the run to retry, with no result left on screen. */
  lemma AnswerShows(s: State, reply: Reply, text: StopMessage)
    requires s.generation in s.tasks
    requires Answers(s.tasks[s.generation].stage, reply) && !s.tasks[s.generation].stage.LoadingRows?
    ensures
      var t, task := Step(s, Settles(s.generation, reply), text), s.tasks[s.generation];
      match Resume(task.stage, reply, text)
      case Await(next) => t == s.(tasks := s.tasks[s.generation := Task(task.listId, next)])
      case Finish(Done(id, message)) =>
        t == s.(tasks := s.tasks[s.generation := Task(task.listId, LoadingRows(id, message))])
      case Finish(Stop(message, runId, kind)) =>
        t == s.(tasks := s.tasks - {s.generation}, phase := Error, errorMessage := Some(message),
                failureKind := Some(kind), researchRunId := runId, notice := None, scoringRunId := None, contactRows := [])
  {
    var task := s.tasks[s.generation];
    forall next: Stage
      ensures (s.tasks - {s.generation})[s.generation := task.(stage := next)]
              == s.tasks[s.generation := Task(task.listId, next)]
    {}
  }

  /** The rows arrive: the result takes the place of everything else; or they do not, and the error does. */
  lemma RowsShow(s: State, id: string, message: Option<string>, reply: Reply, text: StopMessage)
    requires s.generation in s.tasks && s.tasks[s.generation].stage == LoadingRows(id, message) && reply.RowsLoaded?
    ensures
      var t := Step(s, Settles(s.generation, reply), text);
      t == if reply.ok
           then s.(tasks := s.tasks - {s.generation}, phase := Ready, errorMessage := None, failureKind := None,
                   researchRunId := None, notice := message, scoringRunId := Some(id), contactRows := t.contactRows)
           else s.(tasks := s.tasks - {s.generation}, phase := Error, errorMessage := Some(reply.message),
                   failureKind := Some(FailureKind.Scoring), notice := None, scoringRunId := None, contactRows := [])
    ensures
      var t := Step(s, Settles(s.generation, reply), text);
      reply.ok ==> Subsequence(t.contactRows, reply.rows)
                   && forall r :: r in t.contactRows <==> r in reply.rows && r.bucket != "GOOD"
  {
    SelectIsSubsequence(reply.rows, IsQualificationException);
    SelectMembers(reply.rows, IsQualificationException);
  }

  // ----- superseded preparations -----

  /** What the user can see. */
  datatype View = View(
    phase: Phase, selectedListId: Option<string>, errorMessage: Option<string>, notice: Option<string>,
    failureKind: Option<FailureKind>, researchRunId: Option<string>, scoringRunId: Option<string>, contactRows: seq<Row>)

  function Seen(s: State): View {
    View(s.phase, s.selectedListId, s.errorMessage, s.notice, s.failureKind, s.researchRunId, s.scoringRunId, s.contactRows)
  }

  /** The event is about a preparation that is no longer the newest. */
  predicate Superseded(s: State, e: Event) {
    (e.Settles? || e.Throws?) && e.ticket != s.generation
  }

  /** An answer for a superseded preparation, whatever it says, shows nothing, starts no further call and
      leaves every other preparation alone: all it can do is end its own. */
  lemma SupersededIsInert(s: State, e: Event, text: StopMessage)
    requires Superseded(s, e)
    ensures Seen(Step(s, e, text)) == Seen(s) && Step(s, e, text).generation == s.generation
    ensures Step(s, e, text).tasks == s.tasks || Step(s, e, text).tasks == s.tasks - {e.ticket}
  {}

  lemma StepStartsForNewestOnly(s: State, e: Event, text: StopMessage, ticket: nat)
    ensures s.generation <= Step(s, e, text).generation
    ensures ticket < s.generation && ticket in Step(s, e, text).tasks ==>
              ticket in s.tasks && Step(s, e, text).tasks[ticket] == s.tasks[ticket]
  {
    match e
    case Prepare(_) =>
    case Retry =>
    case Settles(_, _) =>
    case Throws(_) =>
  }

  lemma {:induction false} GenerationGrows(s: State, es: seq<Event>, text: StopMessage)
    ensures s.generation <= After(s, es, text).generation
  {
    if es != [] {
      GenerationGrows(s, es[..|es| - 1], text);
      StepStartsForNewestOnly(After(s, es[..|es| - 1], text), es[|es| - 1], text, 0);
    }
  }

  /** Once a newer preparation has begun, an older one never starts another call to the server: whatever
      it waits for later is what it was waiting for then. */
  lemma {:induction false} SupersededCallsNothing(s: State, es: seq<Event>, text: StopMessage, ticket: nat)
    requires ticket < s.generation && ticket in After(s, es, text).tasks
    ensures ticket in s.tasks && After(s, es, text).tasks[ticket] == s.tasks[ticket]
  {
    if es != [] {
      GenerationGrows(s, es[..|es| - 1], text);
      StepStartsForNewestOnly(After(s, es[..|es| - 1], text), es[|es| - 1], text, ticket);
      SupersededCallsNothing(s, es[..|es| - 1], text, ticket);
    }
  }

  // ----- phase coherence -----

  /** What each phase promises about the rest of the screen. */
  ghost predicate Coherent(s: State) {
    match s.phase
    case Idle => s == INITIAL
    case Running => s.errorMessage == None && s.notice == None && s.scoringRunId == None && s.contactRows == []
    case Error =>
      s.errorMessage.Some? && s.failureKind.Some? && s.notice == None && s.scoringRunId == None && s.contactRows == []
    case Ready =>
      && s.scoringRunId.Some? && s.errorMessage == None && s.failureKind == None && s.researchRunId == None
      && forall r :: r in s.contactRows ==> IsQualificationException(r)
  }

  lemma SettlingKeepsCoherent(s: State, ticket: nat, reply: Reply, text: StopMessage)
    requires Tickets(s) && Coherent(s)
    ensures Coherent(Settled(s, ticket, reply, text))
  {
    if reply.RowsLoaded? { SelectMembers(reply.rows, IsQualificationException); }
  }

  /** Every event keeps the screen coherent, with one exception: a retry while results are on screen. */
  lemma StepKeepsCoherent(s: State, e: Event, text: StopMessage)
    requires Tickets(s) && Coherent(s)
    ensures Coherent(Step(s, e, text))
            <==> !(e == Retry && Truthy(s.selectedListId) && (s.scoringRunId.Some? || s.contactRows != []))
  {
    match e
    case Prepare(_) =>
    case Retry =>
    case Settles(ticket, reply) => SettlingKeepsCoherent(s, ticket, reply, text);
    case Throws(_) =>
  }

  /** Every press in the run was of a button the screen showed at that moment. */
  ghost predicate Usable(es: seq<Event>, text: StopMessage, readOnly: bool) {
    forall i :: 0 <= i < |es| ==> Offered(After(INITIAL, es[..i], text), es[i], readOnly)
  }

  lemma UsablePrefix(es: seq<Event>, text: StopMessage, readOnly: bool)
    requires es != [] && Usable(es, text, readOnly)
    ensures Usable(es[..|es| - 1], text, readOnly)
  {
    var pre := es[..|es| - 1];
    forall i | 0 <= i < |pre| ensures Offered(After(INITIAL, pre[..i], text), pre[i], readOnly) {
      assert pre[..i] == es[..i];
    }
  }

  /** In every run of the screen's own buttons the phase never contradicts the rest of the screen. */
  lemma {:induction false} RunIsCoherent(es: seq<Event>, text: StopMessage, readOnly: bool)
    requires Usable(es, text, readOnly)
    ensures Coherent(After(INITIAL, es, text))
  {
    if es != [] {
      var s, e := After(INITIAL, es[..|es| - 1], text), es[|es| - 1];
      UsablePrefix(es, text, readOnly);
      RunIsCoherent(es[..|es| - 1], text, readOnly);
      RunKeepsTickets(es[..|es| - 1], text);
      assert Offered(s, e, readOnly);
      StepKeepsCoherent(s, e, text);
    }
  }

  // ----- a call that throws -----

  ghost predicate Stuck(s: State) {
    s.phase == Running && s.generation !in s.tasks
  }

  /** Nothing catches a rejected call: a running screen is stuck if and only if its newest preparation threw. */
  lemma StuckExactlyAfterThrow(es: seq<Event>, text: StopMessage)
    ensures
      var s := After(INITIAL, es, text);
      Stuck(s) <==> s.generation in s.rejected
  {
    RunKeepsTickets(es, text);
  }

  /** From `s` on, every press is of a button the screen shows at that moment. */
  ghost predicate UsableFrom(s: State, es: seq<Event>, text: StopMessage, readOnly: bool) {
    es != [] ==>
      var pre := es[..|es| - 1];
      UsableFrom(s, pre, text, readOnly) && Offered(After(s, pre, text), es[|es| - 1], readOnly)
  }

  lemma StepStaysStuck(s: State, e: Event, text: StopMessage, readOnly: bool)
    requires Tickets(s) && Stuck(s) && Offered(s, e, readOnly)
    ensures Seen(Step(s, e, text)) == Seen(s) && Stuck(Step(s, e, text))
  {
    match e
    case Prepare(_) =>
    case Retry =>
    case Settles(ticket, _) => assert ticket in s.tasks ==> ticket != s.generation;
    case Throws(ticket) => assert ticket in s.tasks ==> ticket != s.generation;
  }

  /** A stuck screen offers no button, and no late answer changes what it shows: only reloading the page helps. */
  lemma {:induction false} StuckForGood(s: State, es: seq<Event>, text: StopMessage, readOnly: bool)
    requires Tickets(s) && Stuck(s) && UsableFrom(s, es, text, readOnly)
    ensures Seen(After(s, es, text)) == Seen(s) && Stuck(After(s, es, text)) && Tickets(After(s, es, text))
  {
    if es != [] {
      var pre := es[..|es| - 1];
      StuckForGood(s, pre, text, readOnly);
      StepStaysStuck(After(s, pre, text), es[|es| - 1], text, readOnly);
      StepKeepsTickets(After(s, pre, text), es[|es| - 1], text);
    }
  }

  /** The shortest run into it: a list is picked, and the first call throws. */
  lemma ThrowStrandsTheScreen(es: seq<Event>, text: StopMessage)
    requires es == [Prepare("list")] + [Throws(1)]
    ensures Stuck(After(INITIAL, es, text)) && Usable(es, text, false)
  {
    var first: seq<Event> := [Prepare("list")];
    assert first[..0] == [] && es[..1] == first;
    assert After(INITIAL, first, text) == Prepared(INITIAL, "list");
    assert After(INITIAL, es, text) == Threw(Prepared(INITIAL, "list"), 1);
    forall i | 0 <= i < |es| ensures Offered(After(INITIAL, es[..i], text), es[i], false) {
      if i == 0 { assert es[..0] == []; }
    }
  }
}
