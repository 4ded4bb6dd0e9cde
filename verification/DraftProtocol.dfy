/** The draft edit / save / hand-off / send protocol of the email sequence screen
    (src/components/EmailSequenceWorkspace.tsx), as a state and the effect of each event on it.

    Handlers run to completion; every server call is split into the event that starts it and the
    event in which its answer arrives, and answers may arrive in any order. After each event the
    screen's two effects run: leaving a draft clears the unanswered prompt (`LeaveDraft`), and the
    autosave timer is rearmed when what it watches has changed (`Rearm`). */
module DraftProtocol {
  import opened Collections

  datatype Status = Drafted | Approved | Sending | Sent | Skipped | NotCreated
  datatype Length = Short | Medium | Long

  datatype Draft = Draft(
    id: string, number: int, subject: string, body: string, status: Status,
    sentAt: Option<string>, handoffAt: Option<string>, length: Option<Length>)

  /** The text a save submits, a client is opened with, or a send delivers. */
  datatype Copy = Copy(id: string, subject: string, body: string)

  datatype SaveRequest = SaveRequest(copy: Copy, length: Length, afterHandoff: bool)

  /** The retry banner. */
  datatype Failure = Failure(copy: Copy, afterHandoff: bool)

  /** The hand-off in progress: waiting for the clipboard, or for the intent to be recorded. */
  datatype Handoff = NoHandoff | Copying(copy: Copy, length: Length, status: Status) | Recording(id: string)

  datatype SendKind = Connected | Mark
  datatype SendCall = MarkSaving(copy: Copy, length: Length) | Marking(copy: Copy) | Connecting(copy: Copy)

  datatype Config = Config(readOnly: bool, suppressed: bool, hasEmail: bool, canSendConnected: bool)

  /** `generating` holds the length chosen when the generation in flight began. */
  datatype State = State(
    drafts: seq<Draft>, selectedId: Option<string>, selectedLength: Length,
    generating: Option<Length>, saving: bool, sendBusy: Option<SendKind>,
    dirty: bool, failure: Option<Failure>, awaitingConfirm: bool, clientOpenInFlight: bool,
    saveSeq: nat, saves: map<nat, SaveRequest>,
    handoff: Handoff, send: Option<SendCall>, timer: Option<SaveRequest>)

  // ----- answers (an absent text field is the empty string, as both are falsy) -----

  type Words = text: string | text != "" witness "w"

  /** The save action refuses an empty subject or body, and a positive answer carries the stored texts. */
  datatype SaveReply = SaveOk(subject: Words, body: Words) | SaveRejected | SaveThrows
  datatype Launch = TooLong | Prefilled | NeedsCopy(clipboard: bool)
  datatype RecordReply = RecordOk(handoffAt: string) | RecordRejected | RecordThrows
  datatype MarkReply = MarkOk(now: string) | MarkRejected | MarkThrows
  datatype ConnectedReply = ConnectedOk(sentAt: string) | ConnectedRejected | ConnectedThrows
  datatype ReplyStatus = ReplyDraft | ReplySent
  datatype GenerationReply =
    | Generated(noDraftNeeded: bool, ok: bool, draftId: string, subject: string, body: string,
                number: int, hasKind: bool, status: Option<ReplyStatus>, length: Option<Length>)
    | GenerationThrows
  datatype Answer = Yes | No | NotYet
  datatype GenerationKind = FirstEmail | NextEmail | Regenerate | ReplyToProspect

  datatype Event =
    | Edit(newSubject: Option<string>, newBody: Option<string>)
    | ChooseLength(length: Length)
    | SelectDraft(id: string)
    | ReturnToLatest
    | PressSave
    | AutosaveFires
    | PressRetry
    | SaveSettles(seqNo: nat, saveReply: SaveReply)
    | OpenClient(launch: Launch)
    | CopySettles(copied: bool)
    | RecordSettles(recordReply: RecordReply)
    | AnswerConfirm(answer: Answer)
    | PressMark
    | MarkSaveSettles(saveReply: SaveReply)
    | MarkSettles(markReply: MarkReply)
    | PressConnected
    | ConnectedSettles(connectedReply: ConnectedReply)
    | StartGeneration(kind: GenerationKind)
    | GenerationSettles(generation: GenerationReply)

  // ----- derived values -----

  function IdOf(d: Draft): string { d.id }

  function Latest(drafts: seq<Draft>): Option<Draft> {
    if drafts == [] then None else Some(drafts[|drafts| - 1])
  }

  function SelectedOf(drafts: seq<Draft>, id: Option<string>): Option<Draft> {
    if id.Some? && FindBy(drafts, IdOf, id.value).Some? then FindBy(drafts, IdOf, id.value) else Latest(drafts)
  }

  function Selected(s: State): Option<Draft> {
    SelectedOf(s.drafts, s.selectedId)
  }

  function CopyOf(d: Draft): Copy {
    Copy(d.id, d.subject, d.body)
  }

  /** Neither null nor the empty string. */
  predicate Present(text: Option<string>) {
    text.Some? && text.value != ""
  }

  /** The subject and body on screen. */
  function OnScreen(s: State): Option<Copy> {
    if Selected(s).Some? then Some(CopyOf(Selected(s).value)) else None
  }

  predicate Locked(d: Draft) {
    d.status == Sent || d.status == Sending
  }

  /** A draft is selected and its editor and send buttons are shown. */
  predicate Editable(s: State) {
    Selected(s).Some? && !Locked(Selected(s).value)
  }

  predicate SendLocked(s: State) {
    s.sendBusy.Some? || s.generating.Some?
  }

  predicate CanAdd(c: Config, s: State) {
    && !c.readOnly && !c.suppressed
    && Latest(s.drafts).Some?
    && Latest(s.drafts).value.status == Sent
    && Present(Latest(s.drafts).value.sentAt)
  }

  predicate ConfirmShown(c: Config, s: State) {
    !c.readOnly && Selected(s).Some? && Selected(s).value.status != Sent && s.awaitingConfirm
  }

  function ByNumber(d: Draft): real { d.number as real }

  function UpdateById(drafts: seq<Draft>, id: string, change: Draft -> Draft): (r: seq<Draft>)
    ensures |r| == |drafts|
  {
    MapSeq((d: Draft) => if d.id == id then change(d) else d, drafts)
  }

  function WithText(subject: string, body: string): Draft -> Draft {
    (d: Draft) => d.(subject := subject, body := body)
  }

  function WithSent(sentAt: string): Draft -> Draft {
    (d: Draft) => d.(status := Sent, sentAt := Some(sentAt))
  }

  function WithHandoff(at: string): Draft -> Draft {
    (d: Draft) => d.(handoffAt := Some(at))
  }

  function WithLength(length: Length): Draft -> Draft {
    (d: Draft) => d.(length := Some(length))
  }

  // ----- saving -----

  function BeginSave(s: State, copy: Copy, length: Length, afterHandoff: bool): State {
    var n := s.saveSeq + 1;
    s.(saveSeq := n, saving := true, saves := s.saves[n := SaveRequest(copy, length, afterHandoff)])
  }

  /** `persistDraft`: a successful answer's text, which is never empty, replaces what is listed for that draft. */
  function WriteBack(drafts: seq<Draft>, id: string, reply: SaveReply): seq<Draft> {
    if reply.SaveOk?
    then UpdateById(drafts, id, WithText(reply.subject, reply.body))
    else drafts
  }

  /** What the answer to the newest save does besides. */
  function NewestSettled(s: State, req: SaveRequest, reply: SaveReply): State {
    match reply
    case SaveThrows => s.(saving := false)
    case SaveRejected => s.(saving := false, failure := Some(Failure(req.copy, req.afterHandoff)))
    case SaveOk(_, _) =>
      s.(saving := false, dirty := false,
         failure := if s.failure.Some? && s.failure.value.copy.id == req.copy.id then None else s.failure)
  }

  function SaveSettled(s: State, n: nat, reply: SaveReply): State {
    if n !in s.saves then s
    else
      var req := s.saves[n];
      var t := s.(saves := s.saves - {n}, drafts := WriteBack(s.drafts, req.copy.id, reply));
      if n != s.saveSeq then t else NewestSettled(t, req, reply)
  }

  // ----- hand-off to an email client -----

  /** The client has just been opened with `copy`: save that same copy and record the intent. */
  function Opened(s: State, copy: Copy, length: Length, status: Status): State {
    (if status != Sent then BeginSave(s, copy, length, true) else s).(handoff := Recording(copy.id))
  }

  predicate OpenEnabled(c: Config, s: State) {
    && Selected(s).Some? && c.hasEmail && !s.clientOpenInFlight
    && Selected(s).value.status != Sending
    && (Selected(s).value.status == Sent || !SendLocked(s))
  }

  function OpenPressed(c: Config, s: State, launch: Launch): State {
    if !OpenEnabled(c, s) then s
    else
      var d := Selected(s).value;
      var busy := s.(clientOpenInFlight := true);
      match launch
      case TooLong => s
      case NeedsCopy(false) => s
      case NeedsCopy(true) => busy.(handoff := Copying(CopyOf(d), s.selectedLength, d.status))
      case Prefilled => Opened(busy, CopyOf(d), s.selectedLength, d.status)
  }

  function CopySettled(s: State, copied: bool): State {
    if !s.handoff.Copying? then s
    else if copied then Opened(s, s.handoff.copy, s.handoff.length, s.handoff.status)
    else s.(handoff := NoHandoff, clientOpenInFlight := false)
  }

  function RecordSettled(s: State, reply: RecordReply): State {
    if !s.handoff.Recording? then s
    else
      var t := s.(handoff := NoHandoff, clientOpenInFlight := false);
      if reply.RecordOk? && reply.handoffAt != ""
      then t.(drafts := UpdateById(s.drafts, s.handoff.id, WithHandoff(reply.handoffAt)), awaitingConfirm := true)
      else t
  }

  // ----- marking and sending -----

  function MarkSent(s: State): State {
    if Selected(s).None? then s
    else
      var d := Selected(s).value;
      s.(sendBusy := Some(Mark),
         send := Some(if d.status != Sent then MarkSaving(CopyOf(d), s.selectedLength) else Marking(CopyOf(d))))
  }

  function MarkSaveSettled(s: State, reply: SaveReply): State {
    if !(s.send.Some? && s.send.value.MarkSaving?) then s
    else
      var copy := s.send.value.copy;
      var t := s.(drafts := WriteBack(s.drafts, copy.id, reply));
      match reply
      case SaveThrows => t.(send := None, sendBusy := None)
      case SaveRejected => t.(send := None, sendBusy := None, failure := Some(Failure(copy, true)))
      case SaveOk(_, _) => t.(dirty := false, failure := None, send := Some(Marking(copy)))
  }

  function MarkSettled(s: State, reply: MarkReply): State {
    if !(s.send.Some? && s.send.value.Marking?) then s
    else
      var t := s.(send := None, sendBusy := None);
      if reply.MarkOk? then t.(drafts := UpdateById(s.drafts, s.send.value.copy.id, WithSent(reply.now))) else t
  }

  function ConnectedSettled(s: State, reply: ConnectedReply): State {
    if !(s.send.Some? && s.send.value.Connecting?) then s
    else
      var t := s.(send := None, sendBusy := None);
      if reply.ConnectedOk? && reply.sentAt != ""
      then t.(dirty := false, failure := None,
              drafts := UpdateById(s.drafts, s.send.value.copy.id, WithSent(reply.sentAt)))
      else t
  }

  function Confirmed(c: Config, s: State, answer: Answer): State {
    if !ConfirmShown(c, s) || s.sendBusy.Some? || !Present(Selected(s).value.handoffAt) then s
    else
      var t := s.(awaitingConfirm := false);
      if answer == Yes then MarkSent(t) else t
  }

  // ----- generation -----

  predicate GenerationOffered(c: Config, s: State, kind: GenerationKind) {
    && s.generating.None?
    && match kind
       case FirstEmail => Selected(s).None?
       case NextEmail => CanAdd(c, s)
       case Regenerate => Editable(s)
       case ReplyToProspect => Selected(s).Some? && Selected(s).value.status == Sent && !c.readOnly && !c.suppressed
  }

  /** The reply names a complete draft. */
  predicate CarriesDraft(r: GenerationReply) {
    r.Generated? && !r.noDraftNeeded && r.ok && r.draftId != "" && r.subject != "" && r.body != "" && r.number != 0
    && r.hasKind
  }

  function DraftFrom(r: GenerationReply, fallback: Length): Draft
    requires CarriesDraft(r)
  {
    Draft(r.draftId, r.number, r.subject, r.body,
          if r.status == Some(ReplySent) then Sent else Drafted,
          None, None, if r.length.Some? then r.length else Some(fallback))
  }

  function Upsert(drafts: seq<Draft>, d: Draft): seq<Draft> {
    if FindBy(drafts, IdOf, d.id).Some? then UpdateById(drafts, d.id, (_: Draft) => d)
    else StableSort(drafts + [d], ByNumber)
  }

  /** `fallback` is the length that was chosen when the generation began. */
  function ApplyGenerated(s: State, r: GenerationReply, fallback: Length): State {
    if !CarriesDraft(r) then s
    else
      var d := DraftFrom(r, fallback);
      s.(drafts := Upsert(s.drafts, d), selectedId := Some(d.id),
         selectedLength := if r.length.Some? then r.length.value else s.selectedLength,
         dirty := false, failure := None)
  }

  function GenerationSettled(s: State, r: GenerationReply): State {
    if s.generating.None? then s else ApplyGenerated(s.(generating := None), r, s.generating.value)
  }

  // ----- editing and selecting -----

  function Edited(s: State, subject: Option<string>, body: Option<string>): State {
    if !Editable(s) || SendLocked(s) || (subject.None? && body.None?) then s
    else
      var d := Selected(s).value;
      s.(dirty := true,
         drafts := UpdateById(s.drafts, d.id,
           WithText(if subject.Some? then subject.value else d.subject, if body.Some? then body.value else d.body)))
  }

  function LengthChosen(s: State, length: Length): State {
    if SendLocked(s) || (Selected(s).Some? && Selected(s).value.status == Sent) then s
    else
      var t := s.(selectedLength := length);
      if Selected(s).None? then t
      else t.(dirty := true,
              drafts := UpdateById(s.drafts, Selected(s).value.id, WithLength(length)))
  }

  function DraftChosen(s: State, id: string): State {
    var d := FindBy(s.drafts, IdOf, id);
    if d.None? then s
    else s.(selectedId := Some(id),
            selectedLength := if d.value.length.Some? then d.value.length.value else s.selectedLength)
  }

  function LatestChosen(s: State): State {
    if Latest(s.drafts).None? then s else s.(selectedId := Some(Latest(s.drafts).value.id))
  }

  // ----- the buttons that start a save or a send -----

  function SavePressed(s: State): State {
    if !Editable(s) || s.saving || s.sendBusy.Some? then s
    else BeginSave(s, OnScreen(s).value, s.selectedLength, false)
  }

  function AutosaveFired(s: State): State {
    if s.timer.None? then s else BeginSave(s, s.timer.value.copy, s.timer.value.length, false)
  }

  function RetryPressed(s: State): State {
    if !Editable(s) || s.saving || s.failure.None? then s
    else BeginSave(s, s.failure.value.copy, s.selectedLength, s.failure.value.afterHandoff)
  }

  function MarkPressed(s: State): State {
    if Editable(s) && !SendLocked(s) then MarkSent(s) else s
  }

  function ConnectedPressed(c: Config, s: State): State {
    if Editable(s) && !SendLocked(s) && c.canSendConnected
    then s.(sendBusy := Some(Connected), send := Some(Connecting(OnScreen(s).value)))
    else s
  }

  function GenerationStarted(c: Config, s: State, kind: GenerationKind): State {
    if GenerationOffered(c, s, kind) && !c.readOnly && !c.suppressed then s.(generating := Some(s.selectedLength)) else s
  }

  function Handle(c: Config, s: State, e: Event): State {
    match e
    case Edit(subject, body) => Edited(s, subject, body)
    case ChooseLength(length) => LengthChosen(s, length)
    case SelectDraft(id) => DraftChosen(s, id)
    case ReturnToLatest => LatestChosen(s)
    case PressSave => SavePressed(s)
    case AutosaveFires => AutosaveFired(s)
    case PressRetry => RetryPressed(s)
    case SaveSettles(n, reply) => SaveSettled(s, n, reply)
    case OpenClient(launch) => OpenPressed(c, s, launch)
    case CopySettles(copied) => CopySettled(s, copied)
    case RecordSettles(reply) => RecordSettled(s, reply)
    case AnswerConfirm(answer) => Confirmed(c, s, answer)
    case PressMark => MarkPressed(s)
    case MarkSaveSettles(reply) => MarkSaveSettled(s, reply)
    case MarkSettles(reply) => MarkSettled(s, reply)
    case PressConnected => ConnectedPressed(c, s)
    case ConnectedSettles(reply) => ConnectedSettled(s, reply)
    case StartGeneration(kind) => GenerationStarted(c, s, kind)
    case GenerationSettles(reply) => GenerationSettled(s, reply)
  }

  // ----- effects -----

  function SelectedKey(s: State): Option<string> {
    if Selected(s).Some? then Some(Selected(s).value.id) else None
  }

  /** What the autosave effect watches. */
  datatype Watched = Watched(dirty: bool, copy: Option<Copy>, length: Length)

  function WatchedBy(s: State): Watched {
    Watched(s.dirty, OnScreen(s), s.selectedLength)
  }

  function ArmTimer(c: Config, s: State): Option<SaveRequest> {
    if s.dirty && Editable(s) && !c.readOnly && !c.suppressed
    then Some(SaveRequest(OnScreen(s).value, s.selectedLength, false))
    else None
  }

  /** Leaving a draft drops its unanswered prompt, its edit mark and its banner. */
  function LeaveDraft(before: State, s: State): State {
    if SelectedKey(s) == SelectedKey(before) then s
    else s.(awaitingConfirm := false, dirty := false, failure := None)
  }

  /** The timer is replaced when what it watches has changed, and is gone once it has fired. */
  function Rearm(c: Config, before: State, s: State, fired: bool): State {
    s.(timer := if WatchedBy(s) != WatchedBy(before) then ArmTimer(c, s)
                else if fired then None
                else before.timer)
  }

  function Step(c: Config, s: State, e: Event): State {
    Rearm(c, s, LeaveDraft(s, Handle(c, s, e)), e == AutosaveFires)
  }

  /** The screen as mounted on `drafts`. */
  function Mounted(drafts: seq<Draft>, defaultLength: Length): State {
    var latest := Latest(drafts);
    State(drafts, if latest.Some? then Some(latest.value.id) else None,
          if latest.Some? && latest.value.length.Some? then latest.value.length.value else defaultLength,
          None, false, None, false, None, false, false, 0, map[], NoHandoff, None, None)
  }

  /** The state after the events `es`, one after another. */
  function After(c: Config, s: State, es: seq<Event>): State {
    if es == [] then s else Step(c, After(c, s, es[..|es| - 1]), es[|es| - 1])
  }
}
