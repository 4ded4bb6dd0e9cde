/** The email sequence screen as the object it is: fields changed in place by one method per event.
    Every method is proved to do exactly what the protocol of `DraftProtocol` says for its event, so the
    theorems about runs of that protocol are theorems about sequences of these calls. */
module EmailSequenceWorkspace {
  import opened Collections
  import opened DraftProtocol
  import opened DraftBookkeeping

  /** The events in which a call is answered. */
  predicate IsAnswer(e: Event) {
    e.SaveSettles? || e.CopySettles? || e.RecordSettles? || e.MarkSaveSettles? || e.MarkSettles? || e.ConnectedSettles?
    || e.GenerationSettles?
  }

  class Workspace {
    const config: Config

    var drafts: seq<Draft>
    var selectedId: Option<string>
    var selectedLength: Length
    var saving: bool
    var sendBusy: Option<SendKind>
    var dirty: bool
    var persistFailure: Option<Failure>
    var awaitingSendConfirm: bool
    var clientOpenInFlight: bool
    var saveSeq: nat

    // calls waiting for their answers, and the autosave timer
    var saves: map<nat, SaveRequest>
    var handoff: Handoff
    var send: Option<SendCall>
    var generating: Option<Length>
    var timer: Option<SaveRequest>

    function Snapshot(): State
      reads this
    {
      State(drafts, selectedId, selectedLength, generating, saving, sendBusy, dirty, persistFailure,
            awaitingSendConfirm, clientOpenInFlight, saveSeq, saves, handoff, send, timer)
    }

    ghost predicate Valid()
      reads this
    {
      Inv(config, Snapshot())
    }

    constructor (config: Config, initialDrafts: seq<Draft>, defaultLength: Length)
      requires DistinctIds(initialDrafts)
      ensures Valid() && this.config == config && Snapshot() == Mounted(initialDrafts, defaultLength)
    {
      var latest := Latest(initialDrafts);
      this.config := config;
      drafts := initialDrafts;
      selectedId := if latest.Some? then Some(latest.value.id) else None;
      selectedLength := if latest.Some? && latest.value.length.Some? then latest.value.length.value else defaultLength;
      generating, saving, sendBusy, dirty := None, false, None, false;
      persistFailure, awaitingSendConfirm, clientOpenInFlight := None, false, false;
      saveSeq, saves, handoff, send, timer := 0, map[], NoHandoff, None, None;
    }

    // ----- reading the screen -----

    function SelectedDraft(): Option<Draft>
      reads this
    {
      SelectedOf(drafts, selectedId)
    }

    function SelectedDraftId(): Option<string>
      reads this
    {
      if SelectedDraft().Some? then Some(SelectedDraft().value.id) else None
    }

    function Watches(): Watched
      reads this
    {
      Watched(dirty, if SelectedDraft().Some? then Some(CopyOf(SelectedDraft().value)) else None, selectedLength)
    }

    predicate CanEdit()
      reads this
    {
      SelectedDraft().Some? && !Locked(SelectedDraft().value)
    }

    predicate ControlsLocked()
      reads this
    {
      sendBusy.Some? || generating.Some?
    }

    // ----- saving -----

    method StartSave(copy: Copy, length: Length, afterHandoff: bool)
      modifies this`saveSeq, this`saving, this`saves
      ensures Snapshot() == BeginSave(old(Snapshot()), copy, length, afterHandoff)
    {
      saveSeq := saveSeq + 1;
      saving := true;
      saves := saves[saveSeq := SaveRequest(copy, length, afterHandoff)];
    }

    /** The button saves only when the newest save is no longer in flight. */
    method SaveDraft()
      requires Valid()
      modifies this`saveSeq, this`saving, this`saves
      ensures Snapshot() == SavePressed(old(Snapshot()))
      ensures old(saveSeq) in old(saves) ==> Snapshot() == old(Snapshot())
    {
      if CanEdit() && !saving && sendBusy.None? {
        StartSave(CopyOf(SelectedDraft().value), selectedLength, false);
      }
    }

    /** The timer submits what is on screen, not what was on screen when it was armed. */
    method AutosaveTimeout()
      requires Valid()
      modifies this`saveSeq, this`saving, this`saves
      ensures Snapshot() == AutosaveFired(old(Snapshot()))
      ensures timer.Some? ==>
                && SelectedDraft().Some? && !Locked(SelectedDraft().value)
                && saves == old(saves)[saveSeq := SaveRequest(CopyOf(SelectedDraft().value), selectedLength, false)]
    {
      if timer.Some? {
        StartSave(timer.value.copy, timer.value.length, false);
      }
    }

    method RetryFailedPersist()
      modifies this`saveSeq, this`saving, this`saves
      ensures Snapshot() == RetryPressed(old(Snapshot()))
    {
      if CanEdit() && !saving && persistFailure.Some? {
        StartSave(persistFailure.value.copy, selectedLength, persistFailure.value.afterHandoff);
      }
    }

    /** The newest save is answered: it is no longer in flight, and its own banner goes, comes or stays. */
    method NewestAnswered(request: SaveRequest, reply: SaveReply)
      modifies this`saving, this`dirty, this`persistFailure
      ensures Snapshot() == NewestSettled(old(Snapshot()), request, reply)
      ensures !saving && (persistFailure.Some? && persistFailure != old(persistFailure) ==>
                reply.SaveRejected? && persistFailure == Some(Failure(request.copy, request.afterHandoff)))
    {
      saving := false;
      match reply
      case SaveThrows =>
      case SaveRejected => persistFailure := Some(Failure(request.copy, request.afterHandoff));
      case SaveOk(_, _) =>
        dirty := false;
        if persistFailure.Some? && persistFailure.value.copy.id == request.copy.id {
          persistFailure := None;
        }
    }

    /** Only the newest save's answer may change the edit mark, the banner and the saving flag. */
    method SaveAnswered(seqNo: nat, reply: SaveReply)
      requires Valid()
      modifies this`saves, this`drafts, this`saving, this`dirty, this`persistFailure
      ensures Snapshot() == SaveSettled(old(Snapshot()), seqNo, reply)
      ensures seqNo != saveSeq ==> dirty == old(dirty) && persistFailure == old(persistFailure) && saving == old(saving)
      ensures saving <==> saveSeq in saves
    {
      if seqNo in saves {
        var request := saves[seqNo];
        saves := saves - {seqNo};
        drafts := WriteBack(drafts, request.copy.id, reply);
        if seqNo == saveSeq {
          NewestAnswered(request, reply);
        }
      }
    }

    // ----- hand-off to an email client -----

    /** The client is open: save the same copy in the background, and record the intent. */
    method ClientOpened(copy: Copy, length: Length, status: Status)
      modifies this`saveSeq, this`saving, this`saves, this`handoff
      ensures Snapshot() == Opened(old(Snapshot()), copy, length, status)
    {
      if status != Sent {
        StartSave(copy, length, true);
      }
      handoff := Recording(copy.id);
    }

    /** While a hand-off is in progress the button does nothing. */
    method OpenInEmailClient(launch: Launch)
      requires Valid()
      modifies this`saveSeq, this`saving, this`saves, this`handoff, this`clientOpenInFlight
      ensures Snapshot() == OpenPressed(config, old(Snapshot()), launch)
      ensures old(handoff) != NoHandoff ==> Snapshot() == old(Snapshot())
    {
      var selected := SelectedDraft();
      if selected.Some? && config.hasEmail && !clientOpenInFlight && selected.value.status != Sending
         && (selected.value.status == Sent || !ControlsLocked())
      {
        var snapshot := CopyOf(selected.value);
        match launch {
          case TooLong =>
          case Prefilled =>
            clientOpenInFlight := true;
            ClientOpened(snapshot, selectedLength, selected.value.status);
          case NeedsCopy(clipboard) =>
            if clipboard {
              clientOpenInFlight := true;
              handoff := Copying(snapshot, selectedLength, selected.value.status);
            }
        }
      }
    }

    method ClipboardAnswered(copied: bool)
      modifies this`saveSeq, this`saving, this`saves, this`handoff, this`clientOpenInFlight
      ensures Snapshot() == CopySettled(old(Snapshot()), copied)
    {
      if handoff.Copying? {
        if copied {
          ClientOpened(handoff.copy, handoff.length, handoff.status);
        } else {
          handoff := NoHandoff;
          clientOpenInFlight := false;
        }
      }
    }

    method IntentRecorded(reply: RecordReply)
      modifies this`drafts, this`awaitingSendConfirm, this`handoff, this`clientOpenInFlight
      ensures Snapshot() == RecordSettled(old(Snapshot()), reply)
    {
      if handoff.Recording? {
        if reply.RecordOk? && reply.handoffAt != "" {
          drafts := UpdateById(drafts, handoff.id, WithHandoff(reply.handoffAt));
          awaitingSendConfirm := true;
        }
        handoff := NoHandoff;
        clientOpenInFlight := false;
      }
    }

    // ----- marking and sending -----

    method MarkSelectedSent()
      modifies this`sendBusy, this`send
      ensures Snapshot() == MarkSent(old(Snapshot()))
    {
      var selected := SelectedDraft();
      if selected.Some? {
        sendBusy := Some(Mark);
        if selected.value.status != Sent {
          send := Some(MarkSaving(CopyOf(selected.value), selectedLength));
        } else {
          send := Some(Marking(CopyOf(selected.value)));
        }
      }
    }

    /** A send in progress is never replaced: not by the prompt, and not by the two send buttons below. */
    method AnswerSendConfirm(answer: Answer)
      requires Valid()
      modifies this`awaitingSendConfirm, this`sendBusy, this`send
      ensures Snapshot() == Confirmed(config, old(Snapshot()), answer)
      ensures old(send).Some? ==> send == old(send)
    {
      var selected := SelectedDraft();
      if !config.readOnly && selected.Some? && selected.value.status != Sent && awaitingSendConfirm
         && sendBusy.None? && Present(selected.value.handoffAt)
      {
        awaitingSendConfirm := false;
        if answer == Yes {
          MarkSelectedSent();
        }
      }
    }

    method PressMarkSent()
      requires Valid()
      modifies this`sendBusy, this`send
      ensures Snapshot() == MarkPressed(old(Snapshot()))
      ensures old(send).Some? ==> send == old(send)
    {
      if CanEdit() && !ControlsLocked() {
        MarkSelectedSent();
      }
    }

    /** Marking goes on only after a positive answer, and then with nothing marked as edited. */
    method MarkSaveAnswered(reply: SaveReply)
      modifies this`drafts, this`dirty, this`persistFailure, this`sendBusy, this`send
      ensures Snapshot() == MarkSaveSettled(old(Snapshot()), reply)
    {
      if send.Some? && send.value.MarkSaving? {
        var copy := send.value.copy;
        drafts := WriteBack(drafts, copy.id, reply);
        match reply
        case SaveThrows => send, sendBusy := None, None;
        case SaveRejected => send, sendBusy, persistFailure := None, None, Some(Failure(copy, true));
        case SaveOk(_, _) => send, dirty, persistFailure := Some(Marking(copy)), false, None;
      }
    }

    /** The one draft that changes is the marked one, it is SENT then, and no edit of it is waiting. */
    method MarkAnswered(reply: MarkReply)
      requires Valid()
      modifies this`drafts, this`sendBusy, this`send
      ensures Snapshot() == MarkSettled(old(Snapshot()), reply)
      ensures forall d :: d in drafts && d !in old(drafts) ==>
                && d.status == Sent && !dirty
                && old(send).Some? && old(send).value.Marking? && d.id == old(send).value.copy.id
    {
      if send.Some? && send.value.Marking? {
        match reply
        case MarkOk(now) =>
          drafts := UpdateById(drafts, send.value.copy.id, WithSent(now));
          send, sendBusy := None, None;
        case _ => send, sendBusy := None, None;
      }
    }

    method SendConnected()
      requires Valid()
      modifies this`sendBusy, this`send
      ensures Snapshot() == ConnectedPressed(config, old(Snapshot()))
      ensures old(send).Some? ==> send == old(send)
    {
      if CanEdit() && !ControlsLocked() && config.canSendConnected {
        sendBusy := Some(Connected);
        send := Some(Connecting(CopyOf(SelectedDraft().value)));
      }
    }

    method ConnectedAnswered(reply: ConnectedReply)
      modifies this`drafts, this`dirty, this`persistFailure, this`sendBusy, this`send
      ensures Snapshot() == ConnectedSettled(old(Snapshot()), reply)
    {
      match send
      case Some(Connecting(copy)) =>
        send, sendBusy := None, None;
        if reply.ConnectedOk? && reply.sentAt != "" {
          dirty, persistFailure := false, None;
          drafts := UpdateById(drafts, copy.id, WithSent(reply.sentAt));
        }
      case _ =>
    }

    // ----- generation -----

    method Run(kind: GenerationKind)
      modifies this`generating
      ensures Snapshot() == GenerationStarted(config, old(Snapshot()), kind)
    {
      if GenerationOffered(config, Snapshot(), kind) && !config.readOnly && !config.suppressed {
        generating := Some(selectedLength);
      }
    }

    method ShowGenerated(next: GenerationReply, fallback: Length)
      modifies this`selectedLength, this`drafts, this`selectedId, this`dirty, this`persistFailure
      ensures Snapshot() == ApplyGenerated(old(Snapshot()), next, fallback)
    {
      if CarriesDraft(next) {
        var updated := Upsert(drafts, DraftFrom(next, fallback));
        match next.length
        case Some(length) =>
          selectedLength, drafts, selectedId, dirty, persistFailure := length, updated, Some(next.draftId), false, None;
        case None =>
          drafts, selectedId, dirty, persistFailure := updated, Some(next.draftId), false, None;
      }
    }

    method GenerationAnswered(next: GenerationReply)
      modifies this`generating, this`selectedLength, this`drafts, this`selectedId, this`dirty, this`persistFailure
      ensures Snapshot() == GenerationSettled(old(Snapshot()), next)
    {
      if generating.Some? {
        var length := generating.value;
        generating := None;
        ShowGenerated(next, length);
      }
    }

    // ----- editing and selecting -----

    method UpdateSelectedText(subject: Option<string>, body: Option<string>)
      modifies this`drafts, this`dirty
      ensures Snapshot() == Edited(old(Snapshot()), subject, body)
    {
      if CanEdit() && !ControlsLocked() && (subject.Some? || body.Some?) {
        var selected := SelectedDraft().value;
        dirty := true;
        drafts := UpdateById(drafts, selected.id,
          WithText(if subject.Some? then subject.value else selected.subject,
                   if body.Some? then body.value else selected.body));
      }
    }

    method ChooseLength(length: Length)
      modifies this`selectedLength, this`dirty, this`drafts
      ensures Snapshot() == LengthChosen(old(Snapshot()), length)
    {
      var selected := SelectedDraft();
      if !ControlsLocked() && !(selected.Some? && selected.value.status == Sent) {
        selectedLength := length;
        if selected.Some? {
          dirty := true;
          drafts := UpdateById(drafts, selected.value.id, WithLength(length));
        }
      }
    }

    method SelectDraft(id: string)
      modifies this`selectedId, this`selectedLength
      ensures Snapshot() == DraftChosen(old(Snapshot()), id)
    {
      var draft := FindBy(drafts, IdOf, id);
      if draft.Some? {
        selectedId := Some(id);
        if draft.value.length.Some? {
          selectedLength := draft.value.length.value;
        }
      }
    }

    method ReturnToCurrentDraft()
      modifies this`selectedId
      ensures Snapshot() == LatestChosen(old(Snapshot()))
    {
      var latest := Latest(drafts);
      if latest.Some? {
        selectedId := Some(latest.value.id);
      }
    }

    // ----- one event, then the effects -----

    /** The effect on the selected draft. */
    method LeaveEffect(wasSelected: Option<string>, ghost before: State)
      requires wasSelected == SelectedKey(before)
      modifies this`awaitingSendConfirm, this`dirty, this`persistFailure
      ensures Snapshot() == LeaveDraft(before, old(Snapshot()))
    {
      if SelectedDraftId() != wasSelected {
        awaitingSendConfirm, dirty, persistFailure := false, false, None;
      }
    }

    /** The effect on what the autosave watches. */
    method AutosaveEffect(watched: Watched, fired: bool, ghost before: State)
      requires watched == WatchedBy(before) && timer == before.timer
      modifies this`timer
      ensures Snapshot() == Rearm(config, before, old(Snapshot()), fired)
    {
      if Watches() != watched {
        if dirty && CanEdit() && !config.readOnly && !config.suppressed {
          timer := Some(SaveRequest(CopyOf(SelectedDraft().value), selectedLength, false));
        } else {
          timer := None;
        }
      } else if fired {
        timer := None;
      }
    }

    method Presses(e: Event)
      requires Valid() && !IsAnswer(e)
      modifies this`drafts, this`selectedId, this`selectedLength, this`generating, this`saving, this`sendBusy, this`dirty,
               this`awaitingSendConfirm, this`clientOpenInFlight, this`saveSeq, this`saves, this`handoff, this`send
      ensures Snapshot() == Handle(config, old(Snapshot()), e)
    {
      match e
      case Edit(subject, body) => UpdateSelectedText(subject, body);
      case ChooseLength(length) => ChooseLength(length);
      case SelectDraft(id) => SelectDraft(id);
      case ReturnToLatest => ReturnToCurrentDraft();
      case PressSave => SaveDraft();
      case AutosaveFires => AutosaveTimeout();
      case PressRetry => RetryFailedPersist();
      case OpenClient(launch) => OpenInEmailClient(launch);
      case AnswerConfirm(answer) => AnswerSendConfirm(answer);
      case PressMark => PressMarkSent();
      case PressConnected => SendConnected();
      case StartGeneration(kind) => Run(kind);
    }

    method SendAnswers(e: Event)
      requires Valid() && (e.MarkSaveSettles? || e.MarkSettles? || e.ConnectedSettles?)
      modifies this`drafts, this`sendBusy, this`dirty, this`persistFailure, this`send
      ensures Snapshot() == Handle(config, old(Snapshot()), e)
    {
      match e
      case MarkSaveSettles(reply) => MarkSaveAnswered(reply);
      case MarkSettles(reply) => MarkAnswered(reply);
      case ConnectedSettles(reply) => ConnectedAnswered(reply);
    }

    method Answers(e: Event)
      requires Valid() && IsAnswer(e)
      modifies this`drafts, this`selectedId, this`selectedLength, this`generating, this`saving, this`sendBusy, this`dirty,
               this`persistFailure, this`awaitingSendConfirm, this`clientOpenInFlight, this`saveSeq, this`saves,
               this`handoff, this`send
      ensures Snapshot() == Handle(config, old(Snapshot()), e)
    {
      match e
      case SaveSettles(n, reply) => SaveAnswered(n, reply);
      case CopySettles(copied) => ClipboardAnswered(copied);
      case RecordSettles(reply) => IntentRecorded(reply);
      case GenerationSettles(reply) => GenerationAnswered(reply);
      case MarkSaveSettles(_) => SendAnswers(e);
      case MarkSettles(_) => SendAnswers(e);
      case ConnectedSettles(_) => SendAnswers(e);
    }

    /** One event of the screen: its handler, then the effects of the render that follows. */
    method Dispatch(e: Event)
      requires Valid()
      modifies this
      ensures Valid() && Snapshot() == Step(config, old(Snapshot()), e)
    {
      ghost var before := Snapshot();
      var wasSelected, watched := SelectedDraftId(), Watches();
      if IsAnswer(e) { Answers(e); } else { Presses(e); }
      LeaveEffect(wasSelected, before);
      AutosaveEffect(watched, e == AutosaveFires, before);
      StepKeepsInv(config, before, e);
    }
  }
}
