/** Each move of screen and server against the rule of `DraftUnsaved`: a text that is looked after stays so,
    except in exactly the cases named there. */
module DraftUnsavedSteps {
  import opened Collections
  import opened DraftProtocol
  import opened DraftBookkeeping
  import opened DraftHandoff
  import opened DraftUnsaved

  // ----- calls and what is stored for them -----

  /** What is stored is stored for a call in flight, under its id. */
  ghost predicate Sound(c: Config, w: World) {
    && Inv(c, w.screen)
    && (forall id :: id in w.server.held ==> w.server.held[id].id == id)
    && forall k :: k in w.server.stored ==> StoredFor(w, k)
  }

  predicate StoredFor(w: World, k: Call)
    requires k in w.server.stored
  {
    if k.Write? then w.screen.generating.Some?
    else Submitted(w.screen, k).Some? && Submitted(w.screen, k).value.id == w.server.stored[k].id
  }

  /** The events that make no call. */
  predicate Closing(e: Event) {
    e.SelectDraft? || e.ReturnToLatest? || e.MarkSettles? || Answered(e).Some?
  }

  lemma StepFacts(c: Config, s: State, e: Event)
    ensures
      var h, t := Handle(c, s, e), Step(c, s, e);
      var stays := SelectedKey(h) == SelectedKey(s);
      && t.drafts == h.drafts && t.saves == h.saves && t.send == h.send && t.selectedId == h.selectedId
      && t.dirty == (h.dirty && stays) && t.failure == (if stays then h.failure else None)
      && t.generating == h.generating
  {}

  lemma SaveCloses(s: State, n: nat, reply: SaveReply, k: Call)
    ensures Submitted(SaveSettled(s, n, reply), k) == if k == Save(n) then None else Submitted(s, k)
  {}

  lemma MarkSaveCloses(s: State, reply: SaveReply, k: Call)
    ensures Submitted(MarkSaveSettled(s, reply), k) == if k == MarkSave then None else Submitted(s, k)
  {}

  lemma SendCloses(s: State, reply: ConnectedReply, k: Call)
    ensures Submitted(ConnectedSettled(s, reply), k) == if k == Send then None else Submitted(s, k)
  {}

  lemma OthersClose(c: Config, s: State, e: Event, k: Call)
    requires e.SelectDraft? || e.ReturnToLatest? || e.MarkSettles? || e.GenerationSettles?
    ensures Submitted(Handle(c, s, e), k) == Submitted(s, k)
  {}

  lemma AnswerCloses(c: Config, s: State, e: Event, k: Call)
    requires Closing(e)
    ensures Submitted(Handle(c, s, e), k) == if Answered(e) == Some(k) then None else Submitted(s, k)
  {
    match e
    case SaveSettles(n, reply) => SaveCloses(s, n, reply, k);
    case MarkSaveSettles(reply) => MarkSaveCloses(s, reply, k);
    case ConnectedSettles(reply) => SendCloses(s, reply, k);
    case _ => OthersClose(c, s, e, k);
  }

  lemma StepCloses(c: Config, s: State, e: Event, k: Call)
    requires Closing(e)
    ensures Submitted(Step(c, s, e), k) == if Answered(e) == Some(k) then None else Submitted(s, k)
  {
    AnswerCloses(c, s, e, k);
    StepFacts(c, s, e);
  }

  lemma SavesStay(c: Config, s: State, e: Event, n: nat)
    requires Inv(c, s) && !Closing(e) && n in s.saves
    ensures n in Step(c, s, e).saves && Step(c, s, e).saves[n] == s.saves[n]
  {
    StepEnqueues(c, s, e);
  }

  lemma SendStays(c: Config, s: State, e: Event)
    requires Books(s) && !Closing(e) && s.send.Some?
    ensures Handle(c, s, e).send == s.send
  {
    match e
    case AnswerConfirm(_) =>
    case PressMark =>
    case PressConnected =>
    case StartGeneration(_) =>
    case OpenClient(_) =>
    case _ =>
  }

  lemma CallsStay(c: Config, s: State, e: Event, k: Call)
    requires Inv(c, s) && !Closing(e) && Submitted(s, k).Some?
    ensures Submitted(Step(c, s, e), k) == Submitted(s, k)
  {
    if k.Save? {
      SavesStay(c, s, e, k.seqNo);
    } else {
      SendStays(c, s, e);
      StepFacts(c, s, e);
    }
  }

  lemma SendPressesLeaveGeneration(c: Config, s: State, answer: Answer)
    ensures Confirmed(c, s, answer).generating == s.generating
    ensures MarkPressed(s).generating == s.generating && ConnectedPressed(c, s).generating == s.generating
  {}

  lemma SendAnswersLeaveGeneration(s: State, save: SaveReply, mark: MarkReply, sent: ConnectedReply)
    ensures MarkSaveSettled(s, save).generating == s.generating
    ensures MarkSettled(s, mark).generating == s.generating && ConnectedSettled(s, sent).generating == s.generating
  {}

  lemma SendEventsLeaveGeneration(c: Config, s: State, e: Event)
    requires SendEvent(e)
    ensures Handle(c, s, e).generating == s.generating
  {
    match e
    case AnswerConfirm(answer) => SendPressesLeaveGeneration(c, s, answer);
    case PressMark => SendPressesLeaveGeneration(c, s, Yes);
    case PressConnected => SendPressesLeaveGeneration(c, s, Yes);
    case MarkSaveSettles(reply) => SendAnswersLeaveGeneration(s, reply, MarkThrows, ConnectedThrows);
    case MarkSettles(reply) => SendAnswersLeaveGeneration(s, SaveThrows, reply, ConnectedThrows);
    case ConnectedSettles(reply) => SendAnswersLeaveGeneration(s, SaveThrows, MarkThrows, reply);
  }

  lemma SavePressesLeaveGeneration(s: State)
    ensures SavePressed(s).generating == AutosaveFired(s).generating == RetryPressed(s).generating == s.generating
  {}

  lemma HandoffLeavesGeneration(c: Config, s: State, launch: Launch, copied: bool)
    ensures OpenPressed(c, s, launch).generating == CopySettled(s, copied).generating == s.generating
  {}

  lemma SaveEventsLeaveGeneration(c: Config, s: State, e: Event)
    requires SaveEvent(e)
    ensures Handle(c, s, e).generating == s.generating
  {
    match e
    case OpenClient(launch) => HandoffLeavesGeneration(c, s, launch, true);
    case CopySettles(copied) => HandoffLeavesGeneration(c, s, TooLong, copied);
    case SaveSettles(_, _) =>
    case _ => SavePressesLeaveGeneration(s);
  }

  lemma OtherEventsLeaveGeneration(c: Config, s: State, e: Event)
    requires !SendEvent(e) && !SaveEvent(e) && !e.GenerationSettles? && s.generating.Some?
    ensures Handle(c, s, e).generating == s.generating
  {}

  lemma GenerationStays(c: Config, s: State, e: Event)
    requires !e.GenerationSettles? && s.generating.Some?
    ensures Step(c, s, e).generating.Some?
  {
    if SendEvent(e) { SendEventsLeaveGeneration(c, s, e); }
    else if SaveEvent(e) { SaveEventsLeaveGeneration(c, s, e); }
    else { OtherEventsLeaveGeneration(c, s, e); }
    StepFacts(c, s, e);
  }

  lemma EventKeepsSound(c: Config, w: World, e: Event)
    requires Sound(c, w)
    ensures Sound(c, Made(c, w, Screen(e)))
  {
    var v := Made(c, w, Screen(e));
    StepKeepsInv(c, w.screen, e);
    forall k | k in v.server.stored ensures StoredFor(v, k) {
      assert StoredFor(w, k);
      if k.Write? { GenerationStays(c, w.screen, e); }
      else if Closing(e) { StepCloses(c, w.screen, e, k); }
      else { CallsStay(c, w.screen, e, k); }
    }
  }

  lemma MoveKeepsSound(c: Config, w: World, m: Move)
    requires Sound(c, w)
    ensures Sound(c, Next(c, w, m))
  {
    if Possible(w, m) && m.Screen? {
      EventKeepsSound(c, w, m.event);
    } else if Possible(w, m) {
      var v := Next(c, w, m);
      forall k | k in v.server.stored ensures StoredFor(v, k) {
        if m.Overwrite? || k != m.call { assert StoredFor(w, k); }
      }
    }
  }

  // ----- what an answer leaves under way -----

  lemma FlightAfter(c: Config, w: World, e: Event, copy: Copy)
    requires Closing(e)
    ensures InFlight(Made(c, w, Screen(e)), None, copy) <==> InFlight(w, Answered(e), copy)
  {
    var v := Made(c, w, Screen(e));
    if InFlight(v, None, copy) {
      var k: Call :| Submitted(v.screen, k) == Some(copy) && k !in v.server.stored;
      StepCloses(c, w.screen, e, k);
      assert k !in w.server.stored;
    }
    if InFlight(w, Answered(e), copy) {
      var k: Call :| Submitted(w.screen, k) == Some(copy) && Some(k) != Answered(e) && k !in w.server.stored;
      StepCloses(c, w.screen, e, k);
      assert k !in v.server.stored;
    }
  }

  lemma DueAfter(c: Config, w: World, e: Event, copy: Copy)
    ensures Due(Made(c, w, Screen(e)).server, None, copy) <==> Due(w.server, Answered(e), copy)
  {
    var v := Made(c, w, Screen(e)).server;
    if Due(v, None, copy) {
      var k: Call :| k in v.stored && v.stored[k] == copy && k != Send;
      assert k in w.server.stored;
    }
    if Due(w.server, Answered(e), copy) {
      var k: Call :| k in w.server.stored && w.server.stored[k] == copy && Some(k) != Answered(e) && k != Send;
      assert k in v.stored;
    }
  }

  /** A text that an event leaves as it is. */
  lemma AdriftAfter(c: Config, w: World, e: Event, id: string)
    requires Closing(e) && TextOf(Step(c, w.screen, e).drafts, id) == TextOf(w.screen.drafts, id)
    ensures Adrift(Made(c, w, Screen(e)), None, id) <==> Adrift(w, Answered(e), id)
  {
    if TextOf(w.screen.drafts, id).Some? { FlightAfter(c, w, e, TextOf(w.screen.drafts, id).value); }
    if id in w.server.held { DueAfter(c, w, e, w.server.held[id]); }
  }

  /** A text that an event lists. */
  lemma ListedAfter(c: Config, w: World, e: Event, id: string, copy: Copy)
    requires Answered(e).Some? && TextOf(Step(c, w.screen, e).drafts, id) == Some(copy)
    ensures Adrift(Made(c, w, Screen(e)), None, id) <==> OutOfDate(w, Answered(e).value, id, copy)
  {
    FlightAfter(c, w, e, copy);
    if id in w.server.held { DueAfter(c, w, e, w.server.held[id]); }
  }

  ghost predicate DropsExactly(c: Config, w: World, m: Move, id: string) {
    Tended(Made(c, w, m), id) <==> !Drops(c, w, m, id)
  }

  ghost predicate Looked(c: Config, w: World, id: string) {
    Sound(c, w) && TextOf(w.screen.drafts, id).Some? && Tended(w, id)
  }

  // ----- another draft on screen -----

  lemma SameSelection(s: State, h: State)
    requires DistinctIds(s.drafts) && h.drafts == s.drafts && SelectedKey(h) == SelectedKey(s)
    ensures Selected(h) == Selected(s)
  {
    if Selected(s).Some? {
      SelectedListed(s.drafts, s.selectedId);
      SelectedListed(s.drafts, h.selectedId);
      OnePerTag(s.drafts, IdOf, Selected(s).value, Selected(h).value);
    }
  }

  lemma SelectingLeaves(c: Config, s: State, e: Event)
    requires e.SelectDraft? || e.ReturnToLatest?
    ensures Handle(c, s, e).drafts == s.drafts && Handle(c, s, e).dirty == s.dirty && Handle(c, s, e).failure == s.failure
  {}

  lemma LeavingFacts(c: Config, s: State, e: Event)
    requires DistinctIds(s.drafts) && (e.SelectDraft? || e.ReturnToLatest?)
    ensures
      var t := Step(c, s, e);
      t.drafts == s.drafts && LeavingAnswered(s, t, SelectedKey(Handle(c, s, e)) == SelectedKey(s))
  {
    StepFacts(c, s, e);
    SelectingLeaves(c, s, e);
    if SelectedKey(Handle(c, s, e)) == SelectedKey(s) { SameSelection(s, Handle(c, s, e)); }
  }

  /** What is left of a text whose draft was not listed anew. */
  ghost predicate LeftAs(w: World, v: World, but: Option<Call>, id: string) {
    TextOf(v.screen.drafts, id) == TextOf(w.screen.drafts, id) && (Adrift(v, None, id) <==> Adrift(w, but, id))
  }

  ghost predicate ListedAs(w: World, v: World, k: Call, id: string, copy: Copy) {
    TextOf(v.screen.drafts, id) == Some(copy) && (Adrift(v, None, id) <==> OutOfDate(w, k, id, copy))
  }

  predicate LeavingAnswered(s: State, t: State, stays: bool) {
    if stays then Selected(t) == Selected(s) && t.dirty == s.dirty && t.failure == s.failure
    else !t.dirty && t.failure == None
  }

  lemma LeavingOutcome(w: World, v: World, stays: bool, id: string)
    requires Tended(w, id) && LeftAs(w, v, None, id) && LeavingAnswered(w.screen, v.screen, stays)
    ensures Tended(v, id) <==> !(!stays && Adrift(w, None, id))
  {}

  lemma LeavingDropsExactly(c: Config, w: World, e: Event, id: string)
    requires Looked(c, w, id) && (e.SelectDraft? || e.ReturnToLatest?)
    ensures DropsExactly(c, w, Screen(e), id)
  {
    var stays := SelectedKey(Handle(c, w.screen, e)) == SelectedKey(w.screen);
    LeavingFacts(c, w.screen, e);
    AdriftAfter(c, w, e, id);
    LeavingOutcome(w, Made(c, w, Screen(e)), stays, id);
  }

  // ----- a save is answered -----

  /** The same draft is on screen, as editable as before. */
  predicate SameScreen(s: State, t: State) {
    SelectedKey(t) == SelectedKey(s) && Editable(t) == Editable(s)
  }

  lemma ReshapedScreen(s: State, t: State)
    requires Reshaped(s.drafts, t.drafts, None) && t.selectedId == s.selectedId
    ensures SameScreen(s, t)
  {
    ReshapedSelected(s.drafts, t.drafts, None, s.selectedId);
  }

  /** The banner after the save is answered. */
  function BannerAfter(s: State, n: nat, reply: SaveReply): Option<Failure>
    requires n in s.saves
  {
    var request := s.saves[n];
    if n != s.saveSeq then s.failure
    else match reply
      case SaveThrows => s.failure
      case SaveRejected => Some(Failure(request.copy, request.afterHandoff))
      case SaveOk(_, _) => if s.failure.Some? && s.failure.value.copy.id == request.copy.id then None else s.failure
  }

  ghost predicate SaveAnswered(s: State, t: State, n: nat, reply: SaveReply)
    requires n in s.saves
  {
    && t.drafts == WriteBack(s.drafts, s.saves[n].copy.id, reply) && SameScreen(s, t)
    && t.dirty == (s.dirty && !(n == s.saveSeq && reply.SaveOk?)) && t.failure == BannerAfter(s, n, reply)
  }

  lemma SaveHandled(s: State, n: nat, reply: SaveReply)
    requires n in s.saves
    ensures SaveAnswered(s, SaveSettled(s, n, reply), n, reply)
  {
    WriteBackReshapes(s.drafts, s.saves[n].copy.id, reply);
    ReshapedScreen(s, SaveSettled(s, n, reply));
  }

  /** With the same draft on screen, the effects leave text, mark and banner alone. */
  lemma EffectsLeave(c: Config, s: State, e: Event)
    requires SelectedKey(Handle(c, s, e)) == SelectedKey(s)
    ensures
      var h, t := Handle(c, s, e), Step(c, s, e);
      && t.drafts == h.drafts && t.selectedId == h.selectedId && t.dirty == h.dirty && t.failure == h.failure
      && SameScreen(h, t)
  {}

  lemma SaveFacts(c: Config, s: State, n: nat, reply: SaveReply)
    requires n in s.saves
    ensures SaveAnswered(s, Step(c, s, SaveSettles(n, reply)), n, reply)
  {
    SaveHandled(s, n, reply);
    EffectsLeave(c, s, SaveSettles(n, reply));
  }

  lemma FailedSaveOutcome(w: World, v: World, n: nat, reply: SaveReply, id: string)
    requires n in w.screen.saves && SaveAnswered(w.screen, v.screen, n, reply) && !reply.SaveOk?
    requires TextOf(w.screen.drafts, id).Some? && LeftAs(w, v, Some(Save(n)), id)
    ensures Tended(v, id) <==> !SaveDrops(w, n, reply, id)
  {}

  lemma OtherSavedOutcome(w: World, v: World, n: nat, reply: SaveReply, id: string)
    requires n in w.screen.saves && SaveAnswered(w.screen, v.screen, n, reply) && reply.SaveOk?
    requires w.screen.saves[n].copy.id != id && TextOf(w.screen.drafts, id).Some?
    requires TextOf(w.screen.drafts, id).value.id == id && LeftAs(w, v, Some(Save(n)), id) && Tended(w, id)
    requires Adrift(w, Some(Save(n)), id) <==> Adrift(w, None, id)
    ensures Tended(v, id) <==> !SaveDrops(w, n, reply, id)
  {}

  lemma OwnSavedOutcome(w: World, v: World, n: nat, reply: SaveReply, id: string)
    requires n in w.screen.saves && SaveAnswered(w.screen, v.screen, n, reply) && reply.SaveOk?
    requires w.screen.saves[n].copy.id == id && TextOf(w.screen.drafts, id).Some?
    requires ListedAs(w, v, Save(n), id, Copy(id, reply.subject, reply.body))
    ensures Tended(v, id) <==> !SaveDrops(w, n, reply, id)
  {}

  /** A call that was stored for another draft looks after no text of this one. */
  lemma ElsewhereStored(c: Config, w: World, k: Call, id: string)
    requires Sound(c, w) && k in w.server.stored && w.server.stored[k].id != id
    ensures Adrift(w, Some(k), id) <==> Adrift(w, None, id)
  {
    var text := TextOf(w.screen.drafts, id);
    if text.Some? && InFlight(w, None, text.value) {
      var j: Call :| Submitted(w.screen, j) == Some(text.value) && j !in w.server.stored;
      assert j != k;
    }
    if id in w.server.held && Due(w.server, None, w.server.held[id]) {
      var j: Call :| j in w.server.stored && w.server.stored[j] == w.server.held[id] && j != Send;
      assert j != k;
    }
    OneLess(w, k, id);
  }

  lemma OneLess(w: World, k: Call, id: string)
    ensures Adrift(w, None, id) ==> Adrift(w, Some(k), id)
  {}

  lemma SaveLists(c: Config, s: State, n: nat, reply: SaveReply, id: string)
    requires n in s.saves && TextOf(s.drafts, id).Some?
    ensures TextOf(Step(c, s, SaveSettles(n, reply)).drafts, id)
            == if reply.SaveOk? && s.saves[n].copy.id == id then Some(Copy(id, reply.subject, reply.body))
               else TextOf(s.drafts, id)
  {
    SaveFacts(c, s, n, reply);
    WrittenText(s.drafts, s.saves[n].copy.id, reply, id);
  }

  lemma SaveListed(c: Config, w: World, n: nat, reply: SaveReply, id: string)
    requires n in w.screen.saves && TextOf(w.screen.drafts, id).Some?
    ensures
      var v := Made(c, w, Screen(SaveSettles(n, reply)));
      if reply.SaveOk? && w.screen.saves[n].copy.id == id
      then ListedAs(w, v, Save(n), id, Copy(id, reply.subject, reply.body)) else LeftAs(w, v, Some(Save(n)), id)
  {
    SaveLists(c, w.screen, n, reply, id);
    if reply.SaveOk? && w.screen.saves[n].copy.id == id {
      ListedAfter(c, w, SaveSettles(n, reply), id, Copy(id, reply.subject, reply.body));
    } else {
      AdriftAfter(c, w, SaveSettles(n, reply), id);
    }
  }

  lemma SaveDropsExactly(c: Config, w: World, n: nat, reply: SaveReply, id: string)
    requires Looked(c, w, id) && Truthful(w, SaveSettles(n, reply))
    ensures DropsExactly(c, w, Screen(SaveSettles(n, reply)), id)
  {
    var e := SaveSettles(n, reply);
    var v := Made(c, w, Screen(e));
    if n !in w.screen.saves {
      NothingAnswered(c, w, e, id);
    } else {
      SaveFacts(c, w.screen, n, reply);
      SaveListed(c, w, n, reply, id);
      if !reply.SaveOk? {
        FailedSaveOutcome(w, v, n, reply, id);
      } else if w.screen.saves[n].copy.id == id {
        OwnSavedOutcome(w, v, n, reply, id);
      } else {
        FindByFacts(w.screen.drafts, IdOf, id);
        ElsewhereStored(c, w, Save(n), id);
        OtherSavedOutcome(w, v, n, reply, id);
      }
    }
  }

  /** An answer to no call at all. */
  lemma NothingAnswered(c: Config, w: World, e: Event, id: string)
    requires Looked(c, w, id) && Answered(e).Some? && Handle(c, w.screen, e) == w.screen && e != AutosaveFires
    requires if e.GenerationSettles? then w.screen.generating.None? else Submitted(w.screen, Answered(e).value).None?
    ensures Tended(Made(c, w, Screen(e)), id)
  {
    assert Step(c, w.screen, e) == w.screen;
    assert Answered(e).value !in w.server.stored;
    assert w.server.stored - {Answered(e).value} == w.server.stored;
    assert Made(c, w, Screen(e)) == w;
  }

  // ----- a mark or a connected send is answered -----

  ghost predicate MarkSaveAnswered(s: State, t: State, reply: SaveReply)
    requires Submitted(s, MarkSave).Some?
  {
    var request := Submitted(s, MarkSave).value;
    && t.drafts == WriteBack(s.drafts, request.id, reply) && SameScreen(s, t) && t.dirty == (s.dirty && !reply.SaveOk?)
    && t.failure == match reply
                    case SaveOk(_, _) => None
                    case SaveRejected => Some(Failure(request, true))
                    case SaveThrows => s.failure
  }

  lemma MarkSaveHandled(s: State, reply: SaveReply)
    requires Submitted(s, MarkSave).Some?
    ensures MarkSaveAnswered(s, MarkSaveSettled(s, reply), reply)
  {
    WriteBackReshapes(s.drafts, s.send.value.copy.id, reply);
    ReshapedScreen(s, MarkSaveSettled(s, reply));
  }

  lemma MarkSaveFacts(c: Config, s: State, reply: SaveReply)
    requires Submitted(s, MarkSave).Some?
    ensures MarkSaveAnswered(s, Step(c, s, MarkSaveSettles(reply)), reply)
  {
    MarkSaveHandled(s, reply);
    EffectsLeave(c, s, MarkSaveSettles(reply));
  }

  lemma MarkSaveOutcome(w: World, v: World, reply: SaveReply, id: string)
    requires Submitted(w.screen, MarkSave).Some? && MarkSaveAnswered(w.screen, v.screen, reply)
    requires TextOf(w.screen.drafts, id).Some?
    requires if reply.SaveOk? && Submitted(w.screen, MarkSave).value.id == id
             then ListedAs(w, v, MarkSave, id, Copy(id, reply.subject, reply.body)) else LeftAs(w, v, Some(MarkSave), id)
    ensures Tended(v, id) <==> !MarkSaveDrops(w, reply, id)
  {}

  lemma MarkSaveDropsExactly(c: Config, w: World, reply: SaveReply, id: string)
    requires Looked(c, w, id)
    ensures DropsExactly(c, w, Screen(MarkSaveSettles(reply)), id)
  {
    var s, e := w.screen, MarkSaveSettles(reply);
    if Submitted(s, MarkSave).Some? {
      var target := Submitted(s, MarkSave).value.id;
      MarkSaveFacts(c, s, reply);
      WrittenText(s.drafts, target, reply, id);
      if reply.SaveOk? && target == id {
        ListedAfter(c, w, e, id, Copy(id, reply.subject, reply.body));
      } else {
        AdriftAfter(c, w, e, id);
      }
      MarkSaveOutcome(w, Made(c, w, Screen(e)), reply, id);
    } else {
      NothingAnswered(c, w, e, id);
    }
  }

  lemma SentText(drafts: seq<Draft>, target: string, at: string, id: string)
    ensures TextOf(UpdateById(drafts, target, WithSent(at)), id) == TextOf(drafts, id)
  {
    FindUpdated(drafts, target, WithSent(at), id);
  }

  lemma SentScreen(s: State, t: State, target: string, at: string)
    requires t.drafts == UpdateById(s.drafts, target, WithSent(at)) && t.selectedId == s.selectedId
    ensures SelectedKey(t) == SelectedKey(s)
    ensures Editable(t) == (Editable(s) && SelectedKey(s) != Some(target))
  {
    SentReshapes(s.drafts, target, at);
    ReshapedSelected(s.drafts, t.drafts, Some(target), s.selectedId);
  }

  ghost predicate MarkAnswered(s: State, t: State, reply: MarkReply, id: string) {
    var done := s.send.Some? && s.send.value.Marking? && reply.MarkOk?;
    && TextOf(t.drafts, id) == TextOf(s.drafts, id) && t.dirty == s.dirty && t.failure == s.failure
    && SelectedKey(t) == SelectedKey(s)
    && Editable(t) == (Editable(s) && !(done && SelectedKey(s) == Some(s.send.value.copy.id)))
  }

  lemma MarkHandled(s: State, reply: MarkReply, id: string)
    ensures MarkAnswered(s, MarkSettled(s, reply), reply, id)
  {
    if s.send.Some? && s.send.value.Marking? && reply.MarkOk? {
      var target := s.send.value.copy.id;
      SentText(s.drafts, target, reply.now, id);
      SentScreen(s, MarkSettled(s, reply), target, reply.now);
    }
  }

  lemma MarkFacts(c: Config, s: State, reply: MarkReply, id: string)
    ensures MarkAnswered(s, Step(c, s, MarkSettles(reply)), reply, id)
  {
    MarkHandled(s, reply, id);
    EffectsLeave(c, s, MarkSettles(reply));
  }

  lemma MarkOutcome(w: World, v: World, reply: MarkReply, id: string)
    requires Books(w.screen) && Tended(w, id) && MarkAnswered(w.screen, v.screen, reply, id) && LeftAs(w, v, None, id)
    requires Selected(v.screen).Some? ==> Selected(w.screen).Some?
    ensures Tended(v, id) <==> !MarkDrops(w, reply, id)
  {}

  lemma MarkDropsExactly(c: Config, w: World, reply: MarkReply, id: string)
    requires Looked(c, w, id)
    ensures DropsExactly(c, w, Screen(MarkSettles(reply)), id)
  {
    MarkFacts(c, w.screen, reply, id);
    AdriftAfter(c, w, MarkSettles(reply), id);
    MarkOutcome(w, Made(c, w, Screen(MarkSettles(reply))), reply, id);
  }

  ghost predicate SendAnswered(s: State, t: State, reply: ConnectedReply, id: string) {
    var done := reply.ConnectedOk? && reply.sentAt != "";
    && TextOf(t.drafts, id) == TextOf(s.drafts, id)
    && if done then !t.dirty && t.failure == None
       else SameScreen(s, t) && t.dirty == s.dirty && t.failure == s.failure
  }

  lemma SendFacts(c: Config, s: State, reply: ConnectedReply, id: string)
    requires Submitted(s, Send).Some?
    ensures SendAnswered(s, Step(c, s, ConnectedSettles(reply)), reply, id)
  {
    StepFacts(c, s, ConnectedSettles(reply));
    if reply.ConnectedOk? && reply.sentAt != "" { SentText(s.drafts, s.send.value.copy.id, reply.sentAt, id); }
  }

  lemma SendOutcome(w: World, v: World, reply: ConnectedReply, id: string)
    requires Submitted(w.screen, Send).Some? && TextOf(w.screen.drafts, id).Some?
    requires SendAnswered(w.screen, v.screen, reply, id) && LeftAs(w, v, Some(Send), id)
    ensures Tended(v, id) <==> !SendDrops(w, reply, id)
  {}

  lemma SendDropsExactly(c: Config, w: World, reply: ConnectedReply, id: string)
    requires Looked(c, w, id)
    ensures DropsExactly(c, w, Screen(ConnectedSettles(reply)), id)
  {
    if Submitted(w.screen, Send).Some? {
      SendFacts(c, w.screen, reply, id);
      AdriftAfter(c, w, ConnectedSettles(reply), id);
      SendOutcome(w, Made(c, w, Screen(ConnectedSettles(reply))), reply, id);
    } else {
      NothingAnswered(c, w, ConnectedSettles(reply), id);
    }
  }

  // ----- a draft is generated -----

  lemma GeneratedFacts(c: Config, s: State, r: GenerationReply)
    requires s.generating.Some? && CarriesDraft(r)
    ensures
      var t := Step(c, s, GenerationSettles(r));
      t.drafts == Upsert(s.drafts, DraftFrom(r, s.generating.value)) && !t.dirty && t.failure == None
  {
    StepFacts(c, s, GenerationSettles(r));
  }

  lemma NotGeneratedFacts(c: Config, s: State, r: GenerationReply)
    requires s.generating.Some? && !CarriesDraft(r)
    ensures
      var t := Step(c, s, GenerationSettles(r));
      t.drafts == s.drafts && t.selectedId == s.selectedId && t.dirty == s.dirty && t.failure == s.failure
  {
    StepFacts(c, s, GenerationSettles(r));
  }

  lemma GeneratedOutcome(w: World, v: World, r: GenerationReply, id: string)
    requires TextOf(w.screen.drafts, id).Some? && w.screen.generating.Some? && CarriesDraft(r)
    requires !v.screen.dirty && v.screen.failure == None
    requires if r.draftId == id then ListedAs(w, v, Write, id, Copy(id, r.subject, r.body))
             else LeftAs(w, v, Some(Write), id)
    ensures Tended(v, id) <==> !GenerationDrops(w, r, id)
  {}

  lemma NotGeneratedOutcome(w: World, v: World, r: GenerationReply, id: string)
    requires TextOf(w.screen.drafts, id).Some? && w.screen.generating.Some? && !CarriesDraft(r)
    requires LeftAs(w, v, Some(Write), id) && LeavingAnswered(w.screen, v.screen, true)
    ensures Tended(v, id) <==> !GenerationDrops(w, r, id)
  {}

  lemma GeneratedDropsExactly(c: Config, w: World, r: GenerationReply, id: string)
    requires Looked(c, w, id) && w.screen.generating.Some? && CarriesDraft(r)
    ensures DropsExactly(c, w, Screen(GenerationSettles(r)), id)
  {
    var e := GenerationSettles(r);
    GeneratedFacts(c, w.screen, r);
    UpsertedText(w.screen.drafts, DraftFrom(r, w.screen.generating.value), id);
    if r.draftId == id { ListedAfter(c, w, e, id, Copy(id, r.subject, r.body)); } else { AdriftAfter(c, w, e, id); }
    GeneratedOutcome(w, Made(c, w, Screen(e)), r, id);
  }

  lemma NotGeneratedDropsExactly(c: Config, w: World, r: GenerationReply, id: string)
    requires Looked(c, w, id) && w.screen.generating.Some? && !CarriesDraft(r)
    ensures DropsExactly(c, w, Screen(GenerationSettles(r)), id)
  {
    NotGeneratedFacts(c, w.screen, r);
    AdriftAfter(c, w, GenerationSettles(r), id);
    NotGeneratedOutcome(w, Made(c, w, Screen(GenerationSettles(r))), r, id);
  }

  lemma GenerationDropsExactly(c: Config, w: World, r: GenerationReply, id: string)
    requires Looked(c, w, id)
    ensures DropsExactly(c, w, Screen(GenerationSettles(r)), id)
  {
    if w.screen.generating.None? { NothingAnswered(c, w, GenerationSettles(r), id); }
    else if CarriesDraft(r) { GeneratedDropsExactly(c, w, r, id); }
    else { NotGeneratedDropsExactly(c, w, r, id); }
  }

  // ----- the server stores a text -----

  lemma StoringFacts(c: Config, w: World, k: Call, copy: Copy, text: Copy)
    requires Storable(w, k, copy)
    ensures
      var v := Made(c, w, Store(k, copy));
      InFlight(v, None, text) <==> InFlight(w, Some(k), text)
  {
    var v := Made(c, w, Store(k, copy));
    if InFlight(v, None, text) {
      var j: Call :| Submitted(v.screen, j) == Some(text) && j !in v.server.stored;
      assert Submitted(w.screen, j) == Some(text);
    }
    if InFlight(w, Some(k), text) {
      var j: Call :| Submitted(w.screen, j) == Some(text) && Some(j) != Some(k) && j !in w.server.stored;
      assert Submitted(v.screen, j) == Some(text);
    }
  }

  /** What a call stores is due to be listed, unless it is a connected send. */
  lemma StoredIsDue(c: Config, w: World, k: Call, copy: Copy, text: Copy)
    requires Storable(w, k, copy)
    ensures
      var v := Made(c, w, Store(k, copy)).server;
      Due(v, None, text) <==> Due(w.server, None, text) || (k != Send && text == copy)
  {
    var v := Made(c, w, Store(k, copy)).server;
    if Due(v, None, text) {
      var j: Call :| j in v.stored && v.stored[j] == text && j != Send;
      if j != k { assert j in w.server.stored; }
    }
    if Due(w.server, None, text) {
      var j: Call :| j in w.server.stored && w.server.stored[j] == text && j != Send;
      assert j in v.stored && v.stored[j] == text;
    }
    if k != Send && text == copy { assert k in v.stored && v.stored[k] == text; }
  }

  /** What a call has submitted for another draft is another text. */
  lemma OtherFlight(c: Config, w: World, k: Call, copy: Copy, text: Copy)
    requires Storable(w, k, copy) && text.id != copy.id
    ensures InFlight(w, Some(k), text) <==> InFlight(w, None, text)
  {
    if InFlight(w, None, text) {
      var j: Call :| Submitted(w.screen, j) == Some(text) && j !in w.server.stored;
      assert j != k;
    }
    if InFlight(w, Some(k), text) {
      var j: Call :| Submitted(w.screen, j) == Some(text) && Some(j) != Some(k) && j !in w.server.stored;
      assert Some(j) != None;
    }
  }

  lemma StoreDropsExactly(c: Config, w: World, k: Call, copy: Copy, id: string)
    requires Looked(c, w, id) && Storable(w, k, copy)
    ensures DropsExactly(c, w, Store(k, copy), id)
  {
    var text := TextOf(w.screen.drafts, id).value;
    FindByFacts(w.screen.drafts, IdOf, id);
    StoringFacts(c, w, k, copy, text);
    if id == copy.id {
      StoredIsDue(c, w, k, copy, copy);
    } else {
      OtherFlight(c, w, k, copy, text);
      if id in w.server.held { StoredIsDue(c, w, k, copy, w.server.held[id]); }
    }
  }

  lemma OverwriteDropsExactly(c: Config, w: World, copy: Copy, id: string)
    requires Looked(c, w, id)
    ensures DropsExactly(c, w, Overwrite(copy), id)
  {
    var v, text := Made(c, w, Overwrite(copy)), TextOf(w.screen.drafts, id).value;
    assert v.screen == w.screen && v.server.stored == w.server.stored;
    assert InFlight(v, None, text) <==> InFlight(w, None, text);
    assert Due(v.server, None, copy) <==> Due(w.server, None, copy);
    if id in w.server.held { assert Due(v.server, None, w.server.held[id]) <==> Due(w.server, None, w.server.held[id]); }
  }

  // ----- edits and the events that make calls -----

  lemma CallsCarryOn(c: Config, w: World, e: Event, copy: Copy)
    requires Inv(c, w.screen) && !Closing(e)
    ensures InFlight(w, None, copy) ==> InFlight(Made(c, w, Screen(e)), None, copy)
  {
    if InFlight(w, None, copy) {
      var k: Call :| Submitted(w.screen, k) == Some(copy) && k !in w.server.stored;
      CallsStay(c, w.screen, e, k);
      assert Submitted(Made(c, w, Screen(e)).screen, k) == Some(copy);
    }
  }

  lemma HandlesTexts(c: Config, s: State, e: Event, id: string)
    requires !Closing(e) && !e.Edit?
    ensures TextOf(Handle(c, s, e).drafts, id) == TextOf(s.drafts, id)
  {
    if e.ChooseLength? && Selected(s).Some? {
      FindUpdated(s.drafts, Selected(s).value.id, WithLength(e.length), id);
    } else if e.RecordSettles? && s.handoff.Recording? && e.recordReply.RecordOk? {
      FindUpdated(s.drafts, s.handoff.id, WithHandoff(e.recordReply.handoffAt), id);
    }
  }

  lemma MarksStay(c: Config, s: State, e: Event)
    requires Books(s) && !Closing(e)
    ensures s.dirty ==> Handle(c, s, e).dirty
  {}

  lemma HandlerStays(c: Config, s: State, e: Event)
    requires Inv(c, s) && !Closing(e)
    ensures SameScreen(s, Handle(c, s, e)) && Handle(c, s, e).failure == s.failure
  {
    HandleGood(c, s, e);
    ReshapedScreen(s, Handle(c, s, e));
  }

  lemma StepStays(c: Config, s: State, e: Event)
    requires Inv(c, s) && !Closing(e)
    ensures SameScreen(s, Step(c, s, e)) && Step(c, s, e).failure == s.failure && (s.dirty ==> Step(c, s, e).dirty)
  {
    HandlerStays(c, s, e);
    MarksStay(c, s, e);
    EffectsLeave(c, s, e);
  }

  /** A text that an event leaves as it is stays looked after. */
  lemma QuietKeeps(c: Config, w: World, e: Event, id: string)
    requires Looked(c, w, id) && !Closing(e) && TextOf(Step(c, w.screen, e).drafts, id) == TextOf(w.screen.drafts, id)
    ensures Tended(Made(c, w, Screen(e)), id)
  {
    StepStays(c, w.screen, e);
    CallsCarryOn(c, w, e, TextOf(w.screen.drafts, id).value);
  }

  predicate EditOffered(s: State, subject: Option<string>, body: Option<string>) {
    Editable(s) && !SendLocked(s) && (subject.Some? || body.Some?)
  }

  /** The draft on screen is marked; the others keep their texts. */
  lemma EditFacts(c: Config, s: State, subject: Option<string>, body: Option<string>, id: string)
    requires Inv(c, s)
    ensures
      var t := Step(c, s, Edit(subject, body));
      if EditOffered(s, subject, body) && Selected(s).value.id == id then t.dirty
      else TextOf(t.drafts, id) == TextOf(s.drafts, id)
  {
    var e := Edit(subject, body);
    HandlerStays(c, s, e);
    EffectsLeave(c, s, e);
    if EditOffered(s, subject, body) {
      var d := Selected(s).value;
      FindUpdated(s.drafts, d.id, WithText(if subject.Some? then subject.value else d.subject,
                                           if body.Some? then body.value else d.body), id);
    }
  }

  lemma EditDropsNothing(c: Config, w: World, subject: Option<string>, body: Option<string>, id: string)
    requires Looked(c, w, id)
    ensures Tended(Made(c, w, Screen(Edit(subject, body))), id)
  {
    var s, e := w.screen, Edit(subject, body);
    EditFacts(c, s, subject, body, id);
    if EditOffered(s, subject, body) && Selected(s).value.id == id {
      StepStays(c, s, e);
      assert Marked(Step(c, s, e), id);
    } else {
      QuietKeeps(c, w, e, id);
    }
  }

  lemma CallDropsNothing(c: Config, w: World, e: Event, id: string)
    requires Looked(c, w, id) && !Closing(e) && !e.Edit?
    ensures Tended(Made(c, w, Screen(e)), id)
  {
    HandlesTexts(c, w.screen, e, id);
    StepFacts(c, w.screen, e);
    QuietKeeps(c, w, e, id);
  }

  // ----- all moves -----

  lemma EventDropsExactly(c: Config, w: World, e: Event, id: string)
    requires Looked(c, w, id) && Truthful(w, e)
    ensures DropsExactly(c, w, Screen(e), id)
  {
    match e
    case Edit(subject, body) => EditDropsNothing(c, w, subject, body, id);
    case SelectDraft(_) => LeavingDropsExactly(c, w, e, id);
    case ReturnToLatest => LeavingDropsExactly(c, w, e, id);
    case GenerationSettles(r) => GenerationDropsExactly(c, w, r, id);
    case SaveSettles(n, reply) => SaveDropsExactly(c, w, n, reply, id);
    case MarkSaveSettles(reply) => MarkSaveDropsExactly(c, w, reply, id);
    case MarkSettles(reply) => MarkDropsExactly(c, w, reply, id);
    case ConnectedSettles(reply) => SendDropsExactly(c, w, reply, id);
    case _ => CallDropsNothing(c, w, e, id);
  }

  // ----- drafts that are not listed yet -----

  lemma OthersListNothing(c: Config, s: State, e: Event, id: string)
    requires Inv(c, s) && !e.GenerationSettles? && TextOf(s.drafts, id).None?
    ensures TextOf(Step(c, s, e).drafts, id).None?
  {
    StepFacts(c, s, e);
    if !e.SelectDraft? && !e.ReturnToLatest? {
      HandleGood(c, s, e);
      ReshapedFind(s.drafts, Handle(c, s, e).drafts, SentBy(s, e), id);
    }
  }

  lemma NewcomerDropsExactly(c: Config, w: World, r: GenerationReply, id: string)
    requires Sound(c, w) && TextOf(w.screen.drafts, id).None?
    ensures DropsExactly(c, w, Screen(GenerationSettles(r)), id)
  {
    if w.screen.generating.Some? && CarriesDraft(r) {
      GeneratedFacts(c, w.screen, r);
      UpsertedText(w.screen.drafts, DraftFrom(r, w.screen.generating.value), id);
      if r.draftId == id {
        ListedAfter(c, w, GenerationSettles(r), id, Copy(id, r.subject, r.body));
        NewcomerOutcome(w, Made(c, w, Screen(GenerationSettles(r))), r, id);
      }
    } else {
      StepFacts(c, w.screen, GenerationSettles(r));
    }
  }

  lemma NewcomerOutcome(w: World, v: World, r: GenerationReply, id: string)
    requires TextOf(w.screen.drafts, id).None? && w.screen.generating.Some? && CarriesDraft(r) && r.draftId == id
    requires ListedAs(w, v, Write, id, Copy(id, r.subject, r.body)) && !v.screen.dirty && v.screen.failure == None
    ensures Tended(v, id) <==> !GenerationDrops(w, r, id)
  {}

  lemma UnlistedDropsExactly(c: Config, w: World, m: Move, id: string)
    requires Sound(c, w) && TextOf(w.screen.drafts, id).None?
    ensures DropsExactly(c, w, m, id)
  {
    match m
    case Store(_, _) =>
    case Overwrite(_) =>
    case Screen(e) =>
      if e.GenerationSettles? {
        NewcomerDropsExactly(c, w, e.generation, id);
      } else {
        OthersListNothing(c, w.screen, e, id);
      }
  }

  /** A text that is looked after stays so, except in exactly the cases of `Drops`. */
  lemma MoveDropsExactly(c: Config, w: World, m: Move, id: string)
    requires Sound(c, w) && Tended(w, id)
    ensures Tended(Next(c, w, m), id) <==> !(Possible(w, m) && Drops(c, w, m, id))
  {
    if Possible(w, m) && TextOf(w.screen.drafts, id).None? {
      UnlistedDropsExactly(c, w, m, id);
    } else if Possible(w, m) {
      match m
      case Screen(e) => EventDropsExactly(c, w, e, id);
      case Store(k, copy) => StoreDropsExactly(c, w, k, copy, id);
      case Overwrite(copy) => OverwriteDropsExactly(c, w, copy, id);
    }
  }

  // ----- text that is replaced -----

  /** A success for a save of this draft, with another text than the one listed. */
  predicate Replaces(s: State, e: Event, id: string) {
    match e
    case SaveSettles(n, SaveOk(subject, body)) =>
      n in s.saves && s.saves[n].copy.id == id && TextOf(s.drafts, id) != Some(Copy(id, subject, body))
    case MarkSaveSettles(SaveOk(subject, body)) =>
      Submitted(s, MarkSave).Some? && Submitted(s, MarkSave).value.id == id
      && TextOf(s.drafts, id) != Some(Copy(id, subject, body))
    case _ => false
  }

  lemma SaveReplaces(s: State, n: nat, reply: SaveReply, id: string)
    requires TextOf(s.drafts, id).Some?
    ensures TextOf(SaveSettled(s, n, reply).drafts, id) == TextOf(s.drafts, id)
            <==> !Replaces(s, SaveSettles(n, reply), id)
  {
    if n in s.saves { WrittenText(s.drafts, s.saves[n].copy.id, reply, id); }
  }

  lemma MarkSaveReplaces(s: State, reply: SaveReply, id: string)
    requires TextOf(s.drafts, id).Some?
    ensures TextOf(MarkSaveSettled(s, reply).drafts, id) == TextOf(s.drafts, id)
            <==> !Replaces(s, MarkSaveSettles(reply), id)
  {
    if s.send.Some? { WrittenText(s.drafts, s.send.value.copy.id, reply, id); }
  }

  lemma SendingReplacesNothing(s: State, mark: MarkReply, sent: ConnectedReply, id: string)
    ensures TextOf(MarkSettled(s, mark).drafts, id) == TextOf(s.drafts, id)
    ensures TextOf(ConnectedSettled(s, sent).drafts, id) == TextOf(s.drafts, id)
  {
    if s.send.Some? {
      if mark.MarkOk? { SentText(s.drafts, s.send.value.copy.id, mark.now, id); }
      if sent.ConnectedOk? { SentText(s.drafts, s.send.value.copy.id, sent.sentAt, id); }
    }
  }

  lemma HandlingReplaces(c: Config, s: State, e: Event, id: string)
    requires TextOf(s.drafts, id).Some? && !e.Edit? && !e.GenerationSettles?
    ensures TextOf(Handle(c, s, e).drafts, id) == TextOf(s.drafts, id) <==> !Replaces(s, e, id)
  {
    match e
    case SaveSettles(n, reply) => SaveReplaces(s, n, reply, id);
    case MarkSaveSettles(reply) => MarkSaveReplaces(s, reply, id);
    case MarkSettles(reply) => SendingReplacesNothing(s, reply, ConnectedThrows, id);
    case ConnectedSettles(reply) => SendingReplacesNothing(s, MarkThrows, reply, id);
    case SelectDraft(_) =>
    case ReturnToLatest =>
    case _ => HandlesTexts(c, s, e, id);
  }

  /** Apart from editing and generating, the listed text of a draft changes, unsaved or not, exactly when a
      save of it succeeds with another text: anything typed since that save began is gone. */
  lemma AnswersReplaceExactly(c: Config, s: State, e: Event, id: string)
    requires TextOf(s.drafts, id).Some? && !e.Edit? && !e.GenerationSettles?
    ensures TextOf(Step(c, s, e).drafts, id) == TextOf(s.drafts, id) <==> !Replaces(s, e, id)
  {
    StepFacts(c, s, e);
    HandlingReplaces(c, s, e, id);
  }
}
