/** What each event of the email sequence screen does, field by field: which drafts it rewrites and how, and which
    parts of the screen it touches. Whatever is not named stays as it is; the autosave timer, where it may be
    rearmed, is the subject of `DraftSafety`. */
module DraftEffects {
  import opened Collections
  import opened DraftProtocol
  import opened DraftBookkeeping

  // ----- the draft on screen -----

  /** The draft on screen is the listed one that is selected, or else the last. */
  lemma OnScreenIs(s: State)
    ensures Selected(s).None? <==> s.drafts == []
    ensures Selected(s).Some? ==>
              && Selected(s).value in s.drafts
              && if exists d :: d in s.drafts && Some(d.id) == s.selectedId
                 then Some(Selected(s).value.id) == s.selectedId
                 else Selected(s).value == s.drafts[|s.drafts| - 1]
  {
    if s.selectedId.Some? { FindByFacts(s.drafts, IdOf, s.selectedId.value); }
  }

  /** The draft with this id is rewritten in its place; all others stay. */
  ghost predicate Rewritten(was: seq<Draft>, now: seq<Draft>, id: string, becomes: Draft -> Draft) {
    |now| == |was| && forall i :: 0 <= i < |was| ==> now[i] == if was[i].id == id then becomes(was[i]) else was[i]
  }

  lemma {:induction false} RewrittenFind(was: seq<Draft>, now: seq<Draft>, id: string, becomes: Draft -> Draft, k: string)
    requires Rewritten(was, now, id, becomes) && forall d: Draft :: becomes(d).id == d.id
    ensures FindBy(now, IdOf, k) == var d := FindBy(was, IdOf, k);
              if d.Some? && d.value.id == id then Some(becomes(d.value)) else d
  {
    if was != [] { RewrittenFind(was[1..], now[1..], id, becomes, k); }
  }

  lemma RewrittenScreen(s: State, t: State, id: string, becomes: Draft -> Draft)
    requires Rewritten(s.drafts, t.drafts, id, becomes) && forall d: Draft :: becomes(d).id == d.id
    requires t.selectedId == s.selectedId
    ensures Selected(t) == if Selected(s).Some? && Selected(s).value.id == id then Some(becomes(Selected(s).value))
                           else Selected(s)
    ensures SelectedKey(t) == SelectedKey(s)
  {
    if s.selectedId.Some? { RewrittenFind(s.drafts, t.drafts, id, becomes, s.selectedId.value); }
  }

  /** The screen opens on the last draft, with its length if it has one, and with nothing under way. */
  lemma MountedShows(drafts: seq<Draft>, length: Length)
    ensures
      var s, n := Mounted(drafts, length), |drafts|;
      && s.drafts == drafts
      && s.selectedId == (if n == 0 then None else Some(drafts[n - 1].id))
      && s.selectedLength == (if n > 0 && drafts[n - 1].length.Some? then drafts[n - 1].length.value else length)
      && s.generating == None && !s.saving && s.sendBusy == None && !s.dirty && s.failure == None
      && !s.awaitingConfirm && !s.clientOpenInFlight && s.saveSeq == 0 && s.saves == map[]
      && s.handoff == NoHandoff && s.send == None && s.timer == None
  {}

  // ----- the effects after the handler -----

  lemma SameDraftStays(c: Config, s: State, e: Event)
    requires SelectedKey(Handle(c, s, e)) == SelectedKey(s)
    ensures Step(c, s, e) == Handle(c, s, e).(timer := Step(c, s, e).timer)
  {}

  lemma SameTextStays(c: Config, s: State, e: Event)
    requires WatchedBy(Handle(c, s, e)) == WatchedBy(s) && Handle(c, s, e).timer == s.timer && e != AutosaveFires
    ensures Step(c, s, e) == Handle(c, s, e)
  {}

  lemma NothingHappens(c: Config, s: State, e: Event)
    requires Handle(c, s, e) == s && (e == AutosaveFires ==> s.timer.None?)
    ensures Step(c, s, e) == s
  {}

  // ----- editing and selecting -----

  lemma EditHandled(s: State, subject: Option<string>, body: Option<string>)
    requires Editable(s) && !SendLocked(s) && (subject.Some? || body.Some?)
    ensures
      var t, d := Edited(s, subject, body), Selected(s).value;
      var newSubject := if subject.Some? then subject.value else d.subject;
      var newBody := if body.Some? then body.value else d.body;
      && t == s.(drafts := t.drafts, dirty := true)
      && Rewritten(s.drafts, t.drafts, d.id, (x: Draft) => x.(subject := newSubject, body := newBody))
  {}

  /** Typing: the draft on screen gets the typed subject and keeps the old one where none was typed, and likewise for
      the body. Where editing is not offered nothing happens at all. */
  lemma EditLists(c: Config, s: State, subject: Option<string>, body: Option<string>)
    ensures
      var t, d := Step(c, s, Edit(subject, body)), Selected(s);
      if && d.Some? && d.value.status != Sent && d.value.status != Sending
         && s.sendBusy.None? && s.generating.None? && (subject.Some? || body.Some?)
      then
        var newSubject := if subject.Some? then subject.value else d.value.subject;
        var newBody := if body.Some? then body.value else d.value.body;
        && t == s.(drafts := t.drafts, dirty := true, timer := t.timer)
        && Rewritten(s.drafts, t.drafts, d.value.id, (x: Draft) => x.(subject := newSubject, body := newBody))
        && Selected(t) == Some(d.value.(subject := newSubject, body := newBody))
      else t == s
  {
    var e, d := Edit(subject, body), Selected(s);
    if Editable(s) && !SendLocked(s) && (subject.Some? || body.Some?) {
      var newSubject := if subject.Some? then subject.value else d.value.subject;
      var newBody := if body.Some? then body.value else d.value.body;
      EditHandled(s, subject, body);
      RewrittenScreen(s, Handle(c, s, e), d.value.id, (x: Draft) => x.(subject := newSubject, body := newBody));
      SameDraftStays(c, s, e);
    } else {
      NothingHappens(c, s, e);
    }
  }

  /** Choosing a length: the chooser shows it, and the draft on screen, if any, remembers it. */
  lemma LengthShows(c: Config, s: State, length: Length)
    ensures
      var t, d := Step(c, s, ChooseLength(length)), Selected(s);
      if s.sendBusy.Some? || s.generating.Some? || (d.Some? && d.value.status == Sent) then t == s
      else if d.None? then t == s.(selectedLength := length, timer := t.timer)
      else
        && t == s.(selectedLength := length, drafts := t.drafts, dirty := true, timer := t.timer)
        && Rewritten(s.drafts, t.drafts, d.value.id, (x: Draft) => x.(length := Some(length)))
  {
    var e, d := ChooseLength(length), Selected(s);
    if SendLocked(s) || (d.Some? && d.value.status == Sent) {
      NothingHappens(c, s, e);
    } else {
      if d.Some? { RewrittenScreen(s, Handle(c, s, e), d.value.id, (x: Draft) => x.(length := Some(length))); }
      SameDraftStays(c, s, e);
    }
  }

  lemma SelectingMoves(c: Config, s: State, e: Event)
    requires e.SelectDraft? || e.ReturnToLatest?
    ensures
      var h := Handle(c, s, e);
      h == s.(selectedId := h.selectedId, selectedLength := h.selectedLength)
  {}

  lemma AnotherDraftClears(c: Config, s: State, e: Event)
    ensures
      var t, h := Step(c, s, e), Handle(c, s, e);
      && SelectedKey(t) == SelectedKey(h)
      && t == if SelectedKey(h) == SelectedKey(s) then h.(timer := t.timer)
              else h.(timer := t.timer, awaitingConfirm := false, dirty := false, failure := None)
  {}

  /** Another draft on screen drops the unanswered prompt, the edit mark and the banner. */
  lemma SelectingShows(c: Config, s: State, e: Event)
    requires e.SelectDraft? || e.ReturnToLatest?
    ensures
      var t, h, leaves := Step(c, s, e), Handle(c, s, e), SelectedKey(Handle(c, s, e)) != SelectedKey(s);
      && SelectedKey(t) == SelectedKey(h)
      && t == s.(selectedId := h.selectedId, selectedLength := h.selectedLength, timer := t.timer,
                 awaitingConfirm := !leaves && s.awaitingConfirm, dirty := !leaves && s.dirty,
                 failure := if leaves then None else s.failure)
  {
    SelectingMoves(c, s, e);
    AnotherDraftClears(c, s, e);
  }

  lemma ListedUnderItsId(s: State, d: Draft)
    requires DistinctIds(s.drafts) && d in s.drafts
    ensures FindBy(s.drafts, IdOf, d.id) == Some(d)
    ensures Selected(s).Some? && (Selected(s).value.id == d.id ==> Selected(s).value == d)
  {
    FindByFacts(s.drafts, IdOf, d.id);
    OnePerTag(s.drafts, IdOf, FindBy(s.drafts, IdOf, d.id).value, d);
    SelectedListed(s.drafts, s.selectedId);
    if Selected(s).value.id == d.id { OnePerTag(s.drafts, IdOf, Selected(s).value, d); }
  }

  /** Selecting a listed draft puts it on screen, with its length if it has one; any other id does nothing. */
  lemma DraftSelected(c: Config, s: State, id: string)
    requires DistinctIds(s.drafts)
    ensures
      var t := Step(c, s, SelectDraft(id));
      && ((forall d :: d in s.drafts ==> d.id != id) ==> t == s)
      && forall d :: d in s.drafts && d.id == id ==>
           var leaves := Selected(s).value != d;
           && Selected(t) == Some(d)
           && t == s.(selectedId := Some(id), timer := t.timer,
                      selectedLength := if d.length.Some? then d.length.value else s.selectedLength,
                      awaitingConfirm := !leaves && s.awaitingConfirm, dirty := !leaves && s.dirty,
                      failure := if leaves then None else s.failure)
  {
    var e := SelectDraft(id);
    FindByFacts(s.drafts, IdOf, id);
    if FindBy(s.drafts, IdOf, id).None? { NothingHappens(c, s, e); }
    forall d | d in s.drafts && d.id == id
      ensures FindBy(s.drafts, IdOf, id) == Some(d)
      ensures Selected(s).Some? && (Selected(s).value.id == id ==> Selected(s).value == d)
    {
      ListedUnderItsId(s, d);
    }
    SelectingShows(c, s, e);
  }

  /** The link back puts the last draft on screen; the chosen length stays. */
  lemma LatestSelected(c: Config, s: State)
    requires DistinctIds(s.drafts)
    ensures
      var t := Step(c, s, ReturnToLatest);
      if s.drafts == [] then t == s
      else
        var d := s.drafts[|s.drafts| - 1];
        var leaves := Selected(s).value != d;
        && Selected(t) == Some(d)
        && t == s.(selectedId := Some(d.id), timer := t.timer, awaitingConfirm := !leaves && s.awaitingConfirm,
                   dirty := !leaves && s.dirty, failure := if leaves then None else s.failure)
  {
    if s.drafts == [] {
      NothingHappens(c, s, ReturnToLatest);
    } else {
      var d := s.drafts[|s.drafts| - 1];
      ListedUnderItsId(s, d);
      assert Handle(c, s, ReturnToLatest) == s.(selectedId := Some(d.id));
      AnotherDraftClears(c, s, ReturnToLatest);
    }
  }

  // ----- saving -----

  /** The button saves what is on screen, under the next number. */
  lemma SaveStarts(c: Config, s: State)
    ensures
      var t, d := Step(c, s, PressSave), Selected(s);
      t == if d.None? || d.value.status == Sent || d.value.status == Sending || s.saving || s.sendBusy.Some? then s
           else s.(saveSeq := s.saveSeq + 1, saving := true,
                   saves := s.saves[s.saveSeq + 1 := SaveRequest(Copy(d.value.id, d.value.subject, d.value.body),
                                                                 s.selectedLength, false)])
  {
    SameTextStays(c, s, PressSave);
  }

  /** A retry saves what the banner holds, with its flag and the length chosen now. */
  lemma RetryStarts(c: Config, s: State)
    ensures
      var t, d := Step(c, s, PressRetry), Selected(s);
      t == if d.None? || d.value.status == Sent || d.value.status == Sending || s.saving || s.failure.None? then s
           else s.(saveSeq := s.saveSeq + 1, saving := true,
                   saves := s.saves[s.saveSeq + 1 := SaveRequest(s.failure.value.copy, s.selectedLength,
                                                                 s.failure.value.afterHandoff)])
  {
    SameTextStays(c, s, PressRetry);
  }

  /** The timer saves what it was armed with, and is gone. */
  lemma AutosaveStarts(c: Config, s: State)
    ensures
      Step(c, s, AutosaveFires)
      == if s.timer.None? then s
         else s.(saveSeq := s.saveSeq + 1, saving := true, timer := None,
                 saves := s.saves[s.saveSeq + 1 := SaveRequest(s.timer.value.copy, s.timer.value.length, false)])
  {}

  lemma SaveAnswerHandled(s: State, n: nat, reply: SaveReply)
    requires n in s.saves
    ensures
      var t, newest := SaveSettled(s, n, reply), n == s.saveSeq;
      t == s.(saves := s.saves - {n}, drafts := t.drafts,
              saving := s.saving && !newest, dirty := s.dirty && !(newest && reply.SaveOk?), failure := t.failure)
  {}

  lemma SaveAnswerBanner(s: State, n: nat, reply: SaveReply)
    requires n in s.saves
    ensures
      SaveSettled(s, n, reply).failure
      == if n != s.saveSeq || reply.SaveThrows? then s.failure
         else if reply.SaveRejected? then Some(Failure(s.saves[n].copy, s.saves[n].afterHandoff))
         else if s.failure.Some? && s.failure.value.copy.id == s.saves[n].copy.id then None
         else s.failure
  {}

  /** An answer to a save: a success lists the stored text for the saved draft; only the answer to the newest save
      ends the saving, and only then does a success take the mark and its own banner down, and a refusal put the
      banner up. */
  lemma SaveAnswerLists(c: Config, s: State, n: nat, reply: SaveReply)
    ensures
      var t := Step(c, s, SaveSettles(n, reply));
      if n !in s.saves then t == s
      else
        var copy, newest := s.saves[n].copy, n == s.saveSeq;
        && t == s.(saves := s.saves - {n}, drafts := t.drafts, timer := t.timer,
                   saving := s.saving && !newest, dirty := s.dirty && !(newest && reply.SaveOk?),
                   failure := if !newest || reply.SaveThrows? then s.failure
                              else if reply.SaveRejected? then Some(Failure(copy, s.saves[n].afterHandoff))
                              else if s.failure.Some? && s.failure.value.copy.id == copy.id then None
                              else s.failure)
        && if reply.SaveOk?
           then Rewritten(s.drafts, t.drafts, copy.id, (x: Draft) => x.(subject := reply.subject, body := reply.body))
           else t.drafts == s.drafts
  {
    var e := SaveSettles(n, reply);
    if n !in s.saves {
      NothingHappens(c, s, e);
    } else {
      SaveAnswerHandled(s, n, reply);
      SaveAnswerBanner(s, n, reply);
      if reply.SaveOk? {
        RewrittenScreen(s, Handle(c, s, e), s.saves[n].copy.id,
                        (x: Draft) => x.(subject := reply.subject, body := reply.body));
      }
      SameDraftStays(c, s, e);
    }
  }

  // ----- hand-off -----

  /** The screen as the client has just been opened with `copy`: the same copy is being saved, unless the draft was
      SENT already, and the intent is being recorded. */
  ghost predicate ClientOpened(s: State, t: State, copy: Copy, length: Length, status: Status) {
    t == if status == Sent then s.(handoff := Recording(copy.id))
         else s.(handoff := Recording(copy.id), saveSeq := s.saveSeq + 1, saving := true,
                 saves := s.saves[s.saveSeq + 1 := SaveRequest(copy, length, true)])
  }

  /** Opening a client hands off exactly what is on screen: at once when it fits the link, after the clipboard when it
      is to be copied; not at all when the link is too long, when there is no clipboard, while another hand-off is
      under way, or while an unsent draft is locked. */
  lemma ClientOpens(c: Config, s: State, launch: Launch)
    ensures
      var t, d := Step(c, s, OpenClient(launch)), Selected(s);
      if || d.None? || !c.hasEmail || s.clientOpenInFlight || d.value.status == Sending
         || (d.value.status != Sent && (s.sendBusy.Some? || s.generating.Some?))
         || launch.TooLong? || launch == NeedsCopy(false)
      then t == s
      else
        var copy := Copy(d.value.id, d.value.subject, d.value.body);
        if launch.Prefilled? then ClientOpened(s.(clientOpenInFlight := true), t, copy, s.selectedLength, d.value.status)
        else t == s.(clientOpenInFlight := true, handoff := Copying(copy, s.selectedLength, d.value.status))
  {
    SameTextStays(c, s, OpenClient(launch));
  }

  /** Once the clipboard has the body, the client is opened with the copy taken at the press; otherwise the hand-off
      is over. */
  lemma CopyKept(c: Config, s: State, copied: bool)
    ensures
      var t := Step(c, s, CopySettles(copied));
      match s.handoff
      case Copying(copy, length, status) =>
        if copied then ClientOpened(s, t, copy, length, status)
        else t == s.(handoff := NoHandoff, clientOpenInFlight := false)
      case NoHandoff => t == s
      case Recording(_) => t == s
  {
    SameTextStays(c, s, CopySettles(copied));
  }

  /** The recorded intent dates the draft that was handed off and raises the prompt; a refusal does neither. */
  lemma IntentRecorded(c: Config, s: State, reply: RecordReply)
    ensures
      var t := Step(c, s, RecordSettles(reply));
      match s.handoff
      case Recording(id) =>
        if reply.RecordOk? && reply.handoffAt != ""
        then && t == s.(handoff := NoHandoff, clientOpenInFlight := false, awaitingConfirm := true, drafts := t.drafts)
             && Rewritten(s.drafts, t.drafts, id, (x: Draft) => x.(handoffAt := Some(reply.handoffAt)))
        else t == s.(handoff := NoHandoff, clientOpenInFlight := false)
      case NoHandoff => t == s
      case Copying(_, _, _) => t == s
  {
    var e := RecordSettles(reply);
    if s.handoff.Recording? && reply.RecordOk? && reply.handoffAt != "" {
      RewrittenScreen(s, Handle(c, s, e), s.handoff.id, (x: Draft) => x.(handoffAt := Some(reply.handoffAt)));
    }
    SameTextStays(c, s, e);
  }

  // ----- marking and sending -----

  /** Answering the prompt, which is up only for an unsent draft that was handed off, takes it down; only a yes goes on
      to marking, with the copy on screen. */
  lemma PromptAnswered(c: Config, s: State, answer: Answer)
    ensures
      var t, d := Step(c, s, AnswerConfirm(answer)), Selected(s);
      if && !c.readOnly && d.Some? && d.value.status != Sent && s.awaitingConfirm && s.sendBusy.None?
         && d.value.handoffAt.Some? && d.value.handoffAt.value != ""
      then t == if answer.Yes?
                then s.(awaitingConfirm := false, sendBusy := Some(Mark),
                        send := Some(MarkSaving(Copy(d.value.id, d.value.subject, d.value.body), s.selectedLength)))
                else s.(awaitingConfirm := false)
      else t == s
  {
    SameTextStays(c, s, AnswerConfirm(answer));
  }

  /** Marking takes the lock and saves the copy on screen first. */
  lemma MarkStarts(c: Config, s: State)
    ensures
      var t, d := Step(c, s, PressMark), Selected(s);
      t == if d.Some? && d.value.status != Sent && d.value.status != Sending && s.sendBusy.None? && s.generating.None?
           then s.(sendBusy := Some(Mark),
                   send := Some(MarkSaving(Copy(d.value.id, d.value.subject, d.value.body), s.selectedLength)))
           else s
  {
    SameTextStays(c, s, PressMark);
  }

  /** A connected send takes the lock and the copy on screen. */
  lemma ConnectedStarts(c: Config, s: State)
    ensures
      var t, d := Step(c, s, PressConnected), Selected(s);
      t == if && d.Some? && d.value.status != Sent && d.value.status != Sending && s.sendBusy.None?
              && s.generating.None? && c.canSendConnected
           then s.(sendBusy := Some(Connected), send := Some(Connecting(Copy(d.value.id, d.value.subject, d.value.body))))
           else s
  {
    SameTextStays(c, s, PressConnected);
  }

  lemma MarkSaveHandled(s: State, newSubject: Words, newBody: Words)
    requires s.send.Some? && s.send.value.MarkSaving?
    ensures
      var t, copy := MarkSaveSettled(s, SaveOk(newSubject, newBody)), s.send.value.copy;
      && t == s.(send := Some(Marking(copy)), dirty := false, failure := None, drafts := t.drafts)
      && Rewritten(s.drafts, t.drafts, copy.id, (x: Draft) => x.(subject := newSubject, body := newBody))
  {}

  lemma MarkSaveFails(s: State, reply: SaveReply)
    requires s.send.Some? && s.send.value.MarkSaving? && !reply.SaveOk?
    ensures
      MarkSaveSettled(s, reply)
      == s.(send := None, sendBusy := None,
            failure := if reply.SaveThrows? then s.failure else Some(Failure(s.send.value.copy, true)))
  {}

  /** The save before a mark: a success lists the stored text, takes mark and banner down and goes on to mark the
      same copy; a refusal puts the banner up, as after a hand-off; a throw only ends it. */
  lemma MarkSaveAnswered(c: Config, s: State, reply: SaveReply)
    ensures
      var t := Step(c, s, MarkSaveSettles(reply));
      if !(s.send.Some? && s.send.value.MarkSaving?) then t == s
      else
        var copy := s.send.value.copy;
        match reply
        case SaveThrows => t == s.(send := None, sendBusy := None)
        case SaveRejected => t == s.(send := None, sendBusy := None, failure := Some(Failure(copy, true)))
        case SaveOk(newSubject, newBody) =>
          && t == s.(send := Some(Marking(copy)), dirty := false, failure := None, drafts := t.drafts, timer := t.timer)
          && Rewritten(s.drafts, t.drafts, copy.id, (x: Draft) => x.(subject := newSubject, body := newBody))
  {
    var e := MarkSaveSettles(reply);
    if !(s.send.Some? && s.send.value.MarkSaving?) {
      NothingHappens(c, s, e);
    } else if reply.SaveOk? {
      MarkSaveHandled(s, reply.subject, reply.body);
      RewrittenScreen(s, Handle(c, s, e), s.send.value.copy.id,
                      (x: Draft) => x.(subject := reply.subject, body := reply.body));
      SameDraftStays(c, s, e);
    } else {
      MarkSaveFails(s, reply);
      SameTextStays(c, s, e);
    }
  }

  /** A successful mark makes the marked draft SENT at the time it was marked; anything else only ends it. */
  lemma MarkAnswered(c: Config, s: State, reply: MarkReply)
    ensures
      var t := Step(c, s, MarkSettles(reply));
      if !(s.send.Some? && s.send.value.Marking?) then t == s
      else if !reply.MarkOk? then t == s.(send := None, sendBusy := None)
      else
        && t == s.(send := None, sendBusy := None, drafts := t.drafts)
        && Rewritten(s.drafts, t.drafts, s.send.value.copy.id,
                     (x: Draft) => x.(status := Sent, sentAt := Some(reply.now)))
  {
    var e := MarkSettles(reply);
    if s.send.Some? && s.send.value.Marking? && reply.MarkOk? {
      RewrittenScreen(s, Handle(c, s, e), s.send.value.copy.id,
                      (x: Draft) => x.(status := Sent, sentAt := Some(reply.now)));
    }
    SameTextStays(c, s, e);
  }

  /** A connected send that the mailbox dated makes its draft SENT at that time and takes mark and banner down;
      anything else only ends it. */
  lemma ConnectedAnswered(c: Config, s: State, reply: ConnectedReply)
    ensures
      var t := Step(c, s, ConnectedSettles(reply));
      if !(s.send.Some? && s.send.value.Connecting?) then t == s
      else if !reply.ConnectedOk? || reply.sentAt == "" then t == s.(send := None, sendBusy := None)
      else
        && t == s.(send := None, sendBusy := None, dirty := false, failure := None, drafts := t.drafts, timer := t.timer)
        && Rewritten(s.drafts, t.drafts, s.send.value.copy.id,
                     (x: Draft) => x.(status := Sent, sentAt := Some(reply.sentAt)))
  {
    var e := ConnectedSettles(reply);
    if s.send.Some? && s.send.value.Connecting? && reply.ConnectedOk? && reply.sentAt != "" {
      RewrittenScreen(s, Handle(c, s, e), s.send.value.copy.id,
                      (x: Draft) => x.(status := Sent, sentAt := Some(reply.sentAt)));
      SameDraftStays(c, s, e);
    } else {
      SameTextStays(c, s, e);
    }
  }

  // ----- generating -----

  /** A generation begins, with the length chosen then, where its button is shown and the campaign may be written to:
      the first email with no draft, the next one after a latest draft that was sent, a new version of an unsent
      draft, a reply to a sent one. */
  lemma GenerationStarts(c: Config, s: State, kind: GenerationKind)
    ensures
      var t, d := Step(c, s, StartGeneration(kind)), Selected(s);
      var last := if s.drafts == [] then None else Some(s.drafts[|s.drafts| - 1]);
      var offered := match kind
        case FirstEmail => s.drafts == []
        case NextEmail =>
          last.Some? && last.value.status == Sent && last.value.sentAt.Some? && last.value.sentAt.value != ""
        case Regenerate => d.Some? && d.value.status != Sent && d.value.status != Sending
        case ReplyToProspect => d.Some? && d.value.status == Sent;
      t == if !c.readOnly && !c.suppressed && s.generating.None? && offered
           then s.(generating := Some(s.selectedLength)) else s
  {
    OnScreenIs(s);
    SameTextStays(c, s, StartGeneration(kind));
  }

  lemma UpsertReplaces(drafts: seq<Draft>, d: Draft)
    requires FindBy(drafts, IdOf, d.id).Some?
    ensures forall x :: x in Upsert(drafts, d) <==> x == d || (x in drafts && x.id != d.id)
  {
    FindByFacts(drafts, IdOf, d.id);
    var r := Upsert(drafts, d);
    forall x | x in drafts && x.id != d.id ensures x in r {
      var i :| 0 <= i < |drafts| && drafts[i] == x;
      assert r[i] == x;
    }
    var k :| 0 <= k < |drafts| && drafts[k].id == d.id;
    assert r[k] == d;
  }

  lemma UpsertAdds(drafts: seq<Draft>, d: Draft)
    requires FindBy(drafts, IdOf, d.id).None?
    ensures forall x :: x in Upsert(drafts, d) <==> x == d || (x in drafts && x.id != d.id)
  {
    FindByFacts(drafts, IdOf, d.id);
    SortFacts(drafts + [d], ByNumber);
    forall x ensures x in Upsert(drafts, d) <==> x in drafts + [d] {
      assert x in Upsert(drafts, d) <==> x in multiset(Upsert(drafts, d));
      assert x in drafts + [d] <==> x in multiset(drafts + [d]);
    }
  }

  lemma UpsertListed(drafts: seq<Draft>, d: Draft, id: Option<string>)
    requires DistinctIds(drafts) && id == Some(d.id)
    ensures forall x :: x in Upsert(drafts, d) <==> x == d || (x in drafts && x.id != d.id)
    ensures SelectedOf(Upsert(drafts, d), id) == Some(d)
  {
    UpsertKeepsIds(drafts, d);
    if FindBy(drafts, IdOf, d.id).Some? { UpsertReplaces(drafts, d); } else { UpsertAdds(drafts, d); }
    FindByFacts(Upsert(drafts, d), IdOf, d.id);
    OnePerTag(Upsert(drafts, d), IdOf, FindBy(Upsert(drafts, d), IdOf, d.id).value, d);
  }

  /** The draft a complete reply stands for; the length is the reply's, or the one chosen when the generation began. */
  ghost predicate Stands(d: Draft, r: GenerationReply, chosen: Length)
    requires r.Generated?
  {
    && d.id == r.draftId && d.number == r.number && d.subject == r.subject && d.body == r.body
    && d.status == (if r.status == Some(ReplySent) then Sent else Drafted) && d.sentAt == None && d.handoffAt == None
    && d.length == if r.length.Some? then r.length else Some(chosen)
  }

  /** A complete reply lists its draft, instead of the one with its id or besides the others, and puts it on screen
      with mark and banner down; an incomplete one only ends the generation. */
  lemma GenerationLists(c: Config, s: State, r: GenerationReply)
    requires DistinctIds(s.drafts)
    ensures
      var t := Step(c, s, GenerationSettles(r));
      if s.generating.None? then t == s
      else if && r.Generated? && !r.noDraftNeeded && r.ok && r.draftId != "" && r.subject != "" && r.body != ""
              && r.number != 0 && r.hasKind
      then
        && Selected(t).Some? && Stands(Selected(t).value, r, s.generating.value)
        && (forall x :: x in t.drafts <==> x == Selected(t).value || (x in s.drafts && x.id != r.draftId))
        && t == s.(generating := None, drafts := t.drafts, selectedId := Some(r.draftId), timer := t.timer,
                   selectedLength := if r.length.Some? then r.length.value else s.selectedLength,
                   dirty := false, failure := None, awaitingConfirm := t.awaitingConfirm)
        && t.awaitingConfirm == (s.awaitingConfirm && Selected(s).Some? && Selected(s).value.id == r.draftId)
      else t == s.(generating := None)
  {
    var e := GenerationSettles(r);
    if s.generating.Some? && CarriesDraft(r) {
      UpsertListed(s.drafts, DraftFrom(r, s.generating.value), Some(r.draftId));
    } else {
      SameTextStays(c, s, e);
    }
  }
}
