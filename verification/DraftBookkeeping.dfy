/** What every reachable state of the draft protocol keeps: the save counter and the `saving` flag,
    the send lock, the hand-off lock, the autosave timer and the shape of the draft list. */
module DraftBookkeeping {
  import opened Collections
  import opened DraftProtocol

  // ----- the draft list -----

  ghost predicate DistinctIds(drafts: seq<Draft>) {
    DistinctBy(drafts, IdOf)
  }

  lemma SelectedListed(drafts: seq<Draft>, selectedId: Option<string>)
    requires SelectedOf(drafts, selectedId).Some?
    ensures SelectedOf(drafts, selectedId).value in drafts
  {
    if selectedId.Some? { FindByFacts(drafts, IdOf, selectedId.value); }
  }

  function StatusAfter(d: Draft, sent: Option<string>): Status {
    if sent == Some(d.id) then Sent else d.status
  }

  /** The same drafts in the same places: ids and numbers agree, and so do the statuses, except that
      the draft named by `sent` becomes SENT. */
  ghost predicate Reshaped(was: seq<Draft>, now: seq<Draft>, sent: Option<string>) {
    && |now| == |was|
    && forall i :: 0 <= i < |was| ==>
         now[i].id == was[i].id && now[i].number == was[i].number && now[i].status == StatusAfter(was[i], sent)
  }

  lemma UpdateReshapes(drafts: seq<Draft>, id: string, change: Draft -> Draft)
    requires forall d: Draft :: change(d).id == d.id && change(d).number == d.number && change(d).status == d.status
    ensures Reshaped(drafts, UpdateById(drafts, id, change), None)
  {}

  lemma WriteBackReshapes(drafts: seq<Draft>, id: string, reply: SaveReply)
    ensures Reshaped(drafts, WriteBack(drafts, id, reply), None)
  {
    if reply.SaveOk? { UpdateReshapes(drafts, id, WithText(reply.subject, reply.body)); }
  }

  lemma SentReshapes(drafts: seq<Draft>, id: string, at: string)
    ensures Reshaped(drafts, UpdateById(drafts, id, WithSent(at)), Some(id))
  {}

  lemma ReshapedKeepsIds(was: seq<Draft>, now: seq<Draft>, sent: Option<string>)
    requires DistinctIds(was) && Reshaped(was, now, sent)
    ensures DistinctIds(now)
  {
    forall i, j | 0 <= i < j < |now| ensures IdOf(now[i]) != IdOf(now[j]) {
      assert IdOf(was[i]) != IdOf(was[j]);
    }
  }

  /** `b` stands where `a` stood. */
  predicate SameSlot(a: Option<Draft>, b: Option<Draft>, sent: Option<string>) {
    if a.None? then b.None?
    else b.Some? && b.value.id == a.value.id && b.value.status == StatusAfter(a.value, sent)
  }

  lemma {:induction false} ReshapedFind(was: seq<Draft>, now: seq<Draft>, sent: Option<string>, id: string)
    requires Reshaped(was, now, sent)
    ensures SameSlot(FindBy(was, IdOf, id), FindBy(now, IdOf, id), sent)
  {
    if was != [] { ReshapedFind(was[1..], now[1..], sent, id); }
  }

  lemma ReshapedSelected(was: seq<Draft>, now: seq<Draft>, sent: Option<string>, selectedId: Option<string>)
    requires Reshaped(was, now, sent)
    ensures SameSlot(SelectedOf(was, selectedId), SelectedOf(now, selectedId), sent)
  {
    if selectedId.Some? { ReshapedFind(was, now, sent, selectedId.value); }
  }

  lemma UpsertKeepsIds(drafts: seq<Draft>, d: Draft)
    requires DistinctIds(drafts)
    ensures DistinctIds(Upsert(drafts, d))
  {
    FindByFacts(drafts, IdOf, d.id);
    if FindBy(drafts, IdOf, d.id).Some? {
      var r := Upsert(drafts, d);
      forall i, j | 0 <= i < j < |r| ensures IdOf(r[i]) != IdOf(r[j]) {
        assert IdOf(drafts[i]) != IdOf(drafts[j]);
      }
    } else {
      forall i, j | 0 <= i < j < |drafts + [d]| ensures IdOf((drafts + [d])[i]) != IdOf((drafts + [d])[j]) {
        assert drafts[i] in drafts;
        if j < |drafts| { assert IdOf(drafts[i]) != IdOf(drafts[j]); }
      }
      SortDistinct(drafts + [d], ByNumber, IdOf);
    }
  }

  // ----- invariant -----

  /** Requests in flight agree with the flags the screen shows: saves are numbered up to `saveSeq` and
      `saving` says that the newest is still in flight; the send lock is held exactly while a mark or
      connected send is in flight; at most one hand-off is. */
  ghost predicate Books(s: State) {
    && (forall n :: n in s.saves ==> 1 <= n <= s.saveSeq)
    && (s.saving <==> s.saveSeq in s.saves)
    && (s.sendBusy == if s.send.None? then None
                      else if s.send.value.Connecting? then Some(Connected) else Some(Mark))
    && (s.send.Some? && s.send.value.Marking? ==> !s.dirty)
    && (s.clientOpenInFlight <==> s.handoff != NoHandoff)
  }

  /** An armed timer holds exactly what is on screen, and only for a draft that is still editable. */
  ghost predicate TimerFresh(c: Config, s: State) {
    s.timer.Some? ==>
      && !c.readOnly && !c.suppressed && s.dirty && Editable(s)
      && s.timer.value == SaveRequest(OnScreen(s).value, s.selectedLength, false)
  }

  ghost predicate Inv(c: Config, s: State) {
    Books(s) && TimerFresh(c, s) && DistinctIds(s.drafts)
  }

  /** The draft an event turns SENT: the one whose mark or connected send has just succeeded. */
  function SentBy(s: State, e: Event): Option<string> {
    if e.MarkSettles? && e.markReply.MarkOk? && s.send.Some? && s.send.value.Marking? then Some(s.send.value.copy.id)
    else if e.ConnectedSettles? && e.connectedReply.ConnectedOk? && e.connectedReply.sentAt != ""
            && s.send.Some? && s.send.value.Connecting? then Some(s.send.value.copy.id)
    else None
  }

  /** A save in flight or a banner is not dropped while edits are unsaved. */
  ghost predicate KeepsCover(s: State, t: State) {
    s.saving || s.failure.Some? ==> t.saving || t.failure.Some? || !t.dirty
  }

  /** What a handler that neither selects nor generates establishes. */
  ghost predicate Good(s: State, t: State, sent: Option<string>) {
    && Books(t) && Reshaped(s.drafts, t.drafts, sent) && t.selectedId == s.selectedId
    && (sent.Some? ==> !s.dirty || !t.dirty)
    && KeepsCover(s, t)
  }

  predicate SendEvent(e: Event) {
    e.AnswerConfirm? || e.PressMark? || e.MarkSaveSettles? || e.MarkSettles? || e.PressConnected? || e.ConnectedSettles?
  }

  predicate SaveEvent(e: Event) {
    e.PressSave? || e.AutosaveFires? || e.PressRetry? || e.SaveSettles? || e.OpenClient? || e.CopySettles?
  }

  predicate BannerEvent(e: Event) {
    e.SaveSettles? || e.MarkSaveSettles? || e.ConnectedSettles? || e.GenerationSettles?
  }

  predicate LeavesSend(s: State, t: State) {
    t.send == s.send
  }

  predicate LeavesSaves(s: State, t: State) {
    t.saves == s.saves && t.saveSeq == s.saveSeq && t.saving == s.saving
  }

  predicate LeavesBanner(s: State, t: State) {
    t.failure == s.failure
  }

  /** Each kind of bookkeeping is touched by the handlers of its own events only. */
  predicate Framed(s: State, e: Event, t: State) {
    && (SendEvent(e) || LeavesSend(s, t))
    && (SaveEvent(e) || LeavesSaves(s, t))
    && (BannerEvent(e) || LeavesBanner(s, t))
  }

  /** The newest save fails without an answer. */
  predicate NewestThrows(s: State, e: Event) {
    e == SaveSettles(s.saveSeq, SaveThrows)
  }

  predicate Reselects(e: Event) {
    e.SelectDraft? || e.ReturnToLatest? || e.GenerationSettles?
  }

  lemma EditedGood(s: State, subject: Option<string>, body: Option<string>)
    requires Books(s)
    ensures Good(s, Edited(s, subject, body), None)
    ensures LeavesSend(s, Edited(s, subject, body))
    ensures LeavesSaves(s, Edited(s, subject, body)) && LeavesBanner(s, Edited(s, subject, body))
  {
    var t := Edited(s, subject, body);
    assert t == s.(dirty := t.dirty, drafts := t.drafts);
  }

  lemma LengthChosenGood(s: State, length: Length)
    requires Books(s)
    ensures Good(s, LengthChosen(s, length), None)
    ensures LeavesSend(s, LengthChosen(s, length))
    ensures LeavesSaves(s, LengthChosen(s, length)) && LeavesBanner(s, LengthChosen(s, length))
  {
    if Selected(s).Some? { UpdateReshapes(s.drafts, Selected(s).value.id, WithLength(length)); }
  }

  lemma SavePressedGood(s: State)
    requires Books(s)
    ensures Good(s, SavePressed(s), None)
    ensures LeavesSend(s, SavePressed(s)) && LeavesBanner(s, SavePressed(s))
  {}

  lemma AutosaveFiredGood(s: State)
    requires Books(s)
    ensures Good(s, AutosaveFired(s), None)
    ensures LeavesSend(s, AutosaveFired(s)) && LeavesBanner(s, AutosaveFired(s))
  {}

  lemma RetryPressedGood(s: State)
    requires Books(s)
    ensures Good(s, RetryPressed(s), None)
    ensures LeavesSend(s, RetryPressed(s)) && LeavesBanner(s, RetryPressed(s))
  {}

  lemma SaveSettledGood(s: State, n: nat, reply: SaveReply)
    requires Books(s)
    ensures
      var t := SaveSettled(s, n, reply);
      && Books(t) && Reshaped(s.drafts, t.drafts, None) && t.selectedId == s.selectedId && LeavesSend(s, t)
      && (KeepsCover(s, t) || NewestThrows(s, SaveSettles(n, reply)))
  {
    if n in s.saves { WriteBackReshapes(s.drafts, s.saves[n].copy.id, reply); }
  }

  lemma OpenPressedGood(c: Config, s: State, launch: Launch)
    requires Books(s)
    ensures Good(s, OpenPressed(c, s, launch), None)
    ensures LeavesSend(s, OpenPressed(c, s, launch)) && LeavesBanner(s, OpenPressed(c, s, launch))
  {}

  lemma CopySettledGood(s: State, copied: bool)
    requires Books(s)
    ensures Good(s, CopySettled(s, copied), None)
    ensures LeavesSend(s, CopySettled(s, copied)) && LeavesBanner(s, CopySettled(s, copied))
  {}

  lemma RecordSettledGood(s: State, reply: RecordReply)
    requires Books(s)
    ensures Good(s, RecordSettled(s, reply), None)
    ensures LeavesSend(s, RecordSettled(s, reply))
    ensures LeavesSaves(s, RecordSettled(s, reply)) && LeavesBanner(s, RecordSettled(s, reply))
  {
    var t := RecordSettled(s, reply);
    assert t == s.(drafts := t.drafts, awaitingConfirm := t.awaitingConfirm, handoff := t.handoff,
                   clientOpenInFlight := t.clientOpenInFlight);
    if s.handoff.Recording? && reply.RecordOk? {
      UpdateReshapes(s.drafts, s.handoff.id, WithHandoff(reply.handoffAt));
    }
  }

  lemma ConfirmedGood(c: Config, s: State, answer: Answer)
    requires Books(s)
    ensures Good(s, Confirmed(c, s, answer), None)
    ensures LeavesSaves(s, Confirmed(c, s, answer)) && LeavesBanner(s, Confirmed(c, s, answer))
  {}

  lemma MarkPressedGood(s: State)
    requires Books(s)
    ensures Good(s, MarkPressed(s), None)
    ensures LeavesSaves(s, MarkPressed(s)) && LeavesBanner(s, MarkPressed(s))
  {}

  lemma ConnectedPressedGood(c: Config, s: State)
    requires Books(s)
    ensures Good(s, ConnectedPressed(c, s), None)
    ensures LeavesSaves(s, ConnectedPressed(c, s)) && LeavesBanner(s, ConnectedPressed(c, s))
  {}

  lemma MarkSaveSettledGood(s: State, reply: SaveReply)
    requires Books(s)
    ensures Good(s, MarkSaveSettled(s, reply), None)
    ensures LeavesSaves(s, MarkSaveSettled(s, reply))
  {
    if s.send.Some? { WriteBackReshapes(s.drafts, s.send.value.copy.id, reply); }
  }

  lemma MarkSettledGood(s: State, reply: MarkReply)
    requires Books(s)
    ensures Good(s, MarkSettled(s, reply), SentBy(s, MarkSettles(reply)))
    ensures LeavesSaves(s, MarkSettled(s, reply)) && LeavesBanner(s, MarkSettled(s, reply))
  {
    if s.send.Some? && reply.MarkOk? { SentReshapes(s.drafts, s.send.value.copy.id, reply.now); }
  }

  lemma ConnectedSettledGood(s: State, reply: ConnectedReply)
    requires Books(s)
    ensures Good(s, ConnectedSettled(s, reply), SentBy(s, ConnectedSettles(reply)))
    ensures LeavesSaves(s, ConnectedSettled(s, reply))
  {
    if s.send.Some? && reply.ConnectedOk? { SentReshapes(s.drafts, s.send.value.copy.id, reply.sentAt); }
  }

  lemma GenerationStartedGood(c: Config, s: State, kind: GenerationKind)
    requires Books(s)
    ensures Good(s, GenerationStarted(c, s, kind), None)
    ensures LeavesSend(s, GenerationStarted(c, s, kind))
    ensures LeavesSaves(s, GenerationStarted(c, s, kind)) && LeavesBanner(s, GenerationStarted(c, s, kind))
  {
    var t := GenerationStarted(c, s, kind);
    assert t == s.(generating := t.generating);
  }

  /** `Good` for the event, with the one event that may drop the cover left out. */
  ghost predicate Handled(s: State, e: Event, t: State) {
    var sent := SentBy(s, e);
    && Books(t) && Reshaped(s.drafts, t.drafts, sent) && t.selectedId == s.selectedId
    && (sent.Some? ==> !s.dirty || !t.dirty)
    && (KeepsCover(s, t) || NewestThrows(s, e))
    && Framed(s, e, t)
  }

  lemma SendHandled(c: Config, s: State, e: Event)
    requires Books(s) && SendEvent(e)
    ensures Handled(s, e, Handle(c, s, e))
  {
    match e
    case AnswerConfirm(answer) => ConfirmedGood(c, s, answer);
    case PressMark => MarkPressedGood(s);
    case MarkSaveSettles(reply) => MarkSaveSettledGood(s, reply);
    case MarkSettles(reply) => MarkSettledGood(s, reply);
    case PressConnected => ConnectedPressedGood(c, s);
    case ConnectedSettles(reply) => ConnectedSettledGood(s, reply);
  }

  lemma HandleGood(c: Config, s: State, e: Event)
    requires Books(s) && !Reselects(e)
    ensures Handled(s, e, Handle(c, s, e))
  {
    match e
    case Edit(subject, body) => EditedGood(s, subject, body);
    case ChooseLength(length) => LengthChosenGood(s, length);
    case PressSave => SavePressedGood(s);
    case AutosaveFires => AutosaveFiredGood(s);
    case PressRetry => RetryPressedGood(s);
    case SaveSettles(n, reply) => SaveSettledGood(s, n, reply);
    case OpenClient(launch) => OpenPressedGood(c, s, launch);
    case CopySettles(copied) => CopySettledGood(s, copied);
    case RecordSettles(reply) => RecordSettledGood(s, reply);
    case StartGeneration(kind) => GenerationStartedGood(c, s, kind);
    case _ => SendHandled(c, s, e);
  }

  /** While the watched values stay the same, an edited draft stays as editable as it was. */
  ghost predicate StaysEditable(s: State, t: State) {
    s.dirty && WatchedBy(t) == WatchedBy(s) ==> (Editable(t) <==> Editable(s))
  }

  lemma ReshapedStaysEditable(s: State, t: State, sent: Option<string>)
    requires Reshaped(s.drafts, t.drafts, sent) && t.selectedId == s.selectedId
    requires sent.Some? ==> !s.dirty || !t.dirty
    ensures StaysEditable(s, t)
  {
    ReshapedSelected(s.drafts, t.drafts, sent, s.selectedId);
  }

  lemma SelectionStaysEditable(s: State, t: State)
    requires DistinctIds(s.drafts) && t.drafts == s.drafts
    ensures StaysEditable(s, t)
  {
    if Selected(s).Some? && OnScreen(t) == OnScreen(s) {
      SelectedListed(s.drafts, s.selectedId);
      SelectedListed(s.drafts, t.selectedId);
      OnePerTag(s.drafts, IdOf, Selected(s).value, Selected(t).value);
    }
  }

  lemma DraftChosenKeeps(s: State, id: string)
    requires Books(s) && DistinctIds(s.drafts)
    ensures Books(DraftChosen(s, id)) && DraftChosen(s, id).drafts == s.drafts
    ensures StaysEditable(s, DraftChosen(s, id)) && KeepsCover(s, DraftChosen(s, id))
    ensures LeavesSend(s, DraftChosen(s, id))
    ensures LeavesSaves(s, DraftChosen(s, id)) && LeavesBanner(s, DraftChosen(s, id))
  {
    SelectionStaysEditable(s, DraftChosen(s, id));
  }

  lemma LatestChosenKeeps(s: State)
    requires Books(s) && DistinctIds(s.drafts)
    ensures Books(LatestChosen(s)) && LatestChosen(s).drafts == s.drafts
    ensures StaysEditable(s, LatestChosen(s)) && KeepsCover(s, LatestChosen(s))
    ensures LeavesSend(s, LatestChosen(s)) && LeavesSaves(s, LatestChosen(s)) && LeavesBanner(s, LatestChosen(s))
  {
    SelectionStaysEditable(s, LatestChosen(s));
  }

  lemma GenerationSettledKeeps(s: State, r: GenerationReply)
    requires Books(s) && DistinctIds(s.drafts)
    ensures
      var t := GenerationSettled(s, r);
      Books(t) && DistinctIds(t.drafts) && StaysEditable(s, t) && KeepsCover(s, t) && LeavesSend(s, t) && LeavesSaves(s, t)
  {
    if s.generating.Some? && CarriesDraft(r) { UpsertKeepsIds(s.drafts, DraftFrom(r, s.generating.value)); }
  }

  lemma ReselectionKeeps(c: Config, s: State, e: Event)
    requires Books(s) && DistinctIds(s.drafts) && Reselects(e)
    ensures
      var t := Handle(c, s, e);
      Books(t) && DistinctIds(t.drafts) && StaysEditable(s, t) && KeepsCover(s, t) && Framed(s, e, t)
  {
    match e
    case SelectDraft(id) => DraftChosenKeeps(s, id);
    case ReturnToLatest => LatestChosenKeeps(s);
    case GenerationSettles(r) => GenerationSettledKeeps(s, r);
  }

  lemma LeaveDraftKeeps(before: State, s: State)
    requires Books(s) && StaysEditable(before, s)
    ensures
      var t := LeaveDraft(before, s);
      Books(t) && t.drafts == s.drafts && StaysEditable(before, t)
  {}

  lemma RearmKeepsInv(c: Config, before: State, s: State, fired: bool)
    requires TimerFresh(c, before) && Books(s) && DistinctIds(s.drafts) && StaysEditable(before, s)
    ensures Inv(c, Rearm(c, before, s, fired))
  {}

  /** Every handler, in one statement. */
  lemma HandleKeeps(c: Config, s: State, e: Event)
    requires Books(s) && DistinctIds(s.drafts)
    ensures
      var t := Handle(c, s, e);
      && Books(t) && DistinctIds(t.drafts) && StaysEditable(s, t)
      && (KeepsCover(s, t) || NewestThrows(s, e))
      && Framed(s, e, t)
  {
    if Reselects(e) {
      ReselectionKeeps(c, s, e);
    } else {
      var t := Handle(c, s, e);
      HandleGood(c, s, e);
      ReshapedKeepsIds(s.drafts, t.drafts, SentBy(s, e));
      ReshapedStaysEditable(s, t, SentBy(s, e));
    }
  }

  lemma StepKeepsInv(c: Config, s: State, e: Event)
    requires Inv(c, s)
    ensures Inv(c, Step(c, s, e))
  {
    var t := Handle(c, s, e);
    HandleKeeps(c, s, e);
    LeaveDraftKeeps(s, t);
    RearmKeepsInv(c, s, LeaveDraft(s, t), e == AutosaveFires);
  }

  /** In every run, however the answers are interleaved, the invariant holds. */
  lemma {:induction false} RunKeepsInv(c: Config, drafts: seq<Draft>, length: Length, es: seq<Event>)
    requires DistinctIds(drafts)
    ensures Inv(c, After(c, Mounted(drafts, length), es))
  {
    if es != [] {
      RunKeepsInv(c, drafts, length, es[..|es| - 1]);
      StepKeepsInv(c, After(c, Mounted(drafts, length), es[..|es| - 1]), es[|es| - 1]);
    }
  }
}
