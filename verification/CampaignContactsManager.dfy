/** The list preparation screen as the object it is (src/components/CampaignContactsManager.tsx): its
    handlers and the answers they wait for, changing the fields in place as `ContactsProtocol` says. */
module CampaignContactsManager {
  import opened Collections
  import opened ListPreparation
  import opened ContactsProtocol

  class ContactsManager {
    const stopMessage: StopMessage

    var generation: nat
    var phase: Phase
    var selectedListId: Option<string>
    var errorMessage: Option<string>
    var notice: Option<string>
    var failureKind: Option<FailureKind>
    var researchRunId: Option<string>
    var scoringRunId: Option<string>
    var contactRows: seq<Row>

    // preparations waiting for an answer, and those that threw
    var tasks: map<nat, Task>
    var rejected: set<nat>

    function Snapshot(): State
      reads this
    {
      State(generation, phase, selectedListId, errorMessage, notice, failureKind, researchRunId, scoringRunId,
            contactRows, tasks, rejected)
    }

    ghost predicate Valid()
      reads this
    {
      Tickets(Snapshot())
    }

    constructor (stopMessage: StopMessage)
      ensures Valid() && Snapshot() == INITIAL && this.stopMessage == stopMessage
    {
      this.stopMessage := stopMessage;
      generation, phase := 0, Idle;
      selectedListId, errorMessage, notice, failureKind := None, None, None, None;
      researchRunId, scoringRunId, contactRows := None, None, [];
      tasks, rejected := map[], {};
    }

    /** The list is prepared under a new ticket: every preparation in flight is superseded by it. */
    method PrepareList(listId: string)
      requires Valid()
      modifies this
      ensures Snapshot() == Prepared(old(Snapshot()), listId)
      ensures generation !in old(tasks) && tasks == old(tasks)[generation := Task(listId, Starting)]
    {
      generation := generation + 1;
      selectedListId := Some(listId);
      phase := Running;
      errorMessage, notice, failureKind := None, None, None;
      researchRunId, scoringRunId, contactRows := None, None, [];
      tasks := tasks[generation := Task(listId, Starting)];
    }

    /** The selected list again, under a new ticket; a failed research run is retried, not started over. */
    method RetryResearch()
      requires Valid()
      modifies this`generation, this`phase, this`errorMessage, this`notice, this`tasks
      ensures Snapshot() == Retried(old(Snapshot()))
      ensures Truthy(selectedListId) ==>
                && generation !in old(tasks) && generation in tasks && tasks[generation].listId == selectedListId.value
                && (tasks[generation].stage.Retrying? <==> Truthy(researchRunId))
    {
      if Truthy(selectedListId) {
        generation := generation + 1;
        phase := Running;
        errorMessage, notice := None, None;
        var stage := if Truthy(researchRunId) then Retrying else Starting;
        tasks := tasks[generation := Task(selectedListId.value, stage)];
      }
    }

    /** An error takes the place of whatever result was on screen. */
    method ShowFailure(message: string, kind: FailureKind)
      modifies this`failureKind, this`errorMessage, this`notice, this`scoringRunId, this`contactRows, this`phase
      ensures Snapshot() == Failing(old(Snapshot()), message, kind) && Coherent(Snapshot())
    {
      failureKind, errorMessage := Some(kind), Some(message);
      notice, scoringRunId, contactRows := None, None, [];
      phase := Error;
    }

    /** The answer to the last call of a preparation: its rows, or an error. */
    method ShowResult(id: string, text: Option<string>, reply: Reply)
      requires reply.RowsLoaded?
      modifies this`researchRunId, this`failureKind, this`errorMessage, this`notice, this`scoringRunId,
               this`contactRows, this`phase
      ensures Snapshot() == Loaded(old(Snapshot()), id, text, reply) && Coherent(Snapshot())
    {
      if reply.ok {
        researchRunId, failureKind, errorMessage := None, None, None;
        notice, scoringRunId := text, Some(id);
        SelectMembers(reply.rows, IsQualificationException);
        contactRows := Select(reply.rows, IsQualificationException);
        phase := Ready;
      } else {
        ShowFailure(reply.message, FailureKind.Scoring);
      }
    }

    /** An answer arrives. One for a superseded preparation shows nothing; the newest one goes on to its next
        call, or ends with an error or a result that the rest of the screen agrees with. */
    method Answered(ticket: nat, reply: Reply)
      requires Valid()
      modifies this`tasks, this`researchRunId, this`failureKind, this`errorMessage, this`notice,
               this`scoringRunId, this`contactRows, this`phase
      ensures Snapshot() == Settled(old(Snapshot()), ticket, reply, stopMessage)
      ensures ticket != generation ==> Seen(Snapshot()) == old(Seen(Snapshot()))
      ensures phase == old(phase) || (old(phase) == Running && (phase == Error || phase == Ready) && Coherent(Snapshot()))
    {
      if ticket !in tasks || !Answers(tasks[ticket].stage, reply) { return; }
      var task := tasks[ticket];
      tasks := tasks - {ticket};
      if generation == ticket {
        if task.stage.LoadingRows? {
          ShowResult(task.stage.scoringRunId, task.stage.notice, reply);
        } else {
          match Resume(task.stage, reply, stopMessage)
          case Await(stage) => tasks := tasks[ticket := task.(stage := stage)];
          case Finish(Done(id, text)) => tasks := tasks[ticket := task.(stage := LoadingRows(id, text))];
          case Finish(Stop(message, runId, kind)) =>
            ShowFailure(message, kind);
            researchRunId := runId;
        }
      }
    }

    /** A call throws, and nothing catches it: if it was the newest preparation, the screen is stuck. */
    method Rejected(ticket: nat)
      requires Valid()
      modifies this`tasks, this`rejected
      ensures Snapshot() == Threw(old(Snapshot()), ticket)
      ensures ticket == generation && ticket in old(tasks) ==> Stuck(Snapshot())
    {
      if ticket in tasks {
        tasks := tasks - {ticket};
        rejected := rejected + {ticket};
      }
    }

    /** Any event: the screen moves as the protocol does and stays valid. */
    method Dispatch(e: Event)
      requires Valid()
      modifies this
      ensures Valid() && Snapshot() == Step(old(Snapshot()), e, stopMessage)
    {
      StepKeepsTickets(Snapshot(), e, stopMessage);
      match e
      case Prepare(listId) => PrepareList(listId);
      case Retry => RetryResearch();
      case Settles(ticket, reply) => Answered(ticket, reply);
      case Throws(ticket) => Rejected(ticket);
    }
  }
}
