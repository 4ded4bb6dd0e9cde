/** Copies handed to an email client are not lost silently: what a save in flight, the retry banner and
    a retry hold, over whole runs. */
module DraftHandoff {
  import opened Collections
  import opened DraftProtocol
  import opened DraftBookkeeping
  import opened DraftSentSafety

  // ----- what each event submits -----

  /** The copy an event opens the email client with. */
  function OpensClient(c: Config, s: State, e: Event): Option<Copy> {
    if e == OpenClient(Prefilled) && OpenEnabled(c, s) then OnScreen(s)
    else if e == CopySettles(true) && s.handoff.Copying? then Some(s.handoff.copy)
    else None
  }

  /** The save an event starts. */
  function Submits(c: Config, s: State, e: Event): Option<SaveRequest> {
    match e
    case PressSave =>
      if Editable(s) && !s.saving && s.sendBusy.None?
      then Some(SaveRequest(OnScreen(s).value, s.selectedLength, false)) else None
    case AutosaveFires => s.timer
    case PressRetry =>
      if Editable(s) && !s.saving && s.failure.Some?
      then Some(SaveRequest(s.failure.value.copy, s.selectedLength, s.failure.value.afterHandoff)) else None
    case OpenClient(_) =>
      if OpensClient(c, s, e).Some? && Selected(s).value.status != Sent
      then Some(SaveRequest(OnScreen(s).value, s.selectedLength, true)) else None
    case CopySettles(_) =>
      if OpensClient(c, s, e).Some? && s.handoff.status != Sent
      then Some(SaveRequest(s.handoff.copy, s.handoff.length, true)) else None
    case _ => None
  }

  /** Either nothing is submitted, or one request joins those in flight under the next number. */
  ghost predicate Enqueues(s: State, t: State, request: Option<SaveRequest>) {
    if request.None? then LeavesSaves(s, t)
    else t.saveSeq == s.saveSeq + 1 && t.saving && t.saves == s.saves[t.saveSeq := request.value]
  }

  lemma SavePressedEnqueues(c: Config, s: State)
    ensures Enqueues(s, SavePressed(s), Submits(c, s, PressSave))
  {}

  lemma AutosaveEnqueues(c: Config, s: State)
    requires TimerFresh(c, s)
    ensures Enqueues(s, AutosaveFired(s), Submits(c, s, AutosaveFires))
  {}

  lemma RetryEnqueues(c: Config, s: State)
    ensures Enqueues(s, RetryPressed(s), Submits(c, s, PressRetry))
  {}

  lemma OpenEnqueues(c: Config, s: State, launch: Launch)
    ensures Enqueues(s, OpenPressed(c, s, launch), Submits(c, s, OpenClient(launch)))
  {}

  lemma CopyEnqueues(c: Config, s: State, copied: bool)
    ensures Enqueues(s, CopySettled(s, copied), Submits(c, s, CopySettles(copied)))
  {}

  lemma SaveEventEnqueues(c: Config, s: State, e: Event)
    requires Inv(c, s) && SaveEvent(e) && !e.SaveSettles?
    ensures Enqueues(s, Handle(c, s, e), Submits(c, s, e))
  {
    match e
    case PressSave => SavePressedEnqueues(c, s);
    case AutosaveFires => AutosaveEnqueues(c, s);
    case PressRetry => RetryEnqueues(c, s);
    case OpenClient(launch) => OpenEnqueues(c, s, launch);
    case CopySettles(copied) => CopyEnqueues(c, s, copied);
  }

  lemma EffectsLeaveSaves(c: Config, before: State, s: State, fired: bool)
    ensures LeavesSaves(s, Rearm(c, before, LeaveDraft(before, s), fired))
  {}

  lemma StepEnqueues(c: Config, s: State, e: Event)
    requires Inv(c, s) && !e.SaveSettles?
    ensures Enqueues(s, Step(c, s, e), Submits(c, s, e))
  {
    if SaveEvent(e) { SaveEventEnqueues(c, s, e); } else { HandleKeeps(c, s, e); }
    EffectsLeaveSaves(c, s, Handle(c, s, e), e == AutosaveFires);
  }

  // ----- a request in flight does not change -----

  lemma AnswerFixesSaves(s: State, n: nat, reply: SaveReply, m: nat)
    ensures s.saveSeq == SaveSettled(s, n, reply).saveSeq
    ensures m in SaveSettled(s, n, reply).saves ==> m in s.saves && SaveSettled(s, n, reply).saves[m] == s.saves[m]
  {}

  lemma StepFixesSaves(c: Config, s: State, e: Event, n: nat)
    requires Inv(c, s)
    ensures s.saveSeq <= Step(c, s, e).saveSeq
    ensures n <= s.saveSeq && n in Step(c, s, e).saves ==> n in s.saves && Step(c, s, e).saves[n] == s.saves[n]
  {
    if e.SaveSettles? {
      AnswerFixesSaves(s, e.seqNo, e.saveReply, n);
      EffectsLeaveSaves(c, s, SaveSettled(s, e.seqNo, e.saveReply), false);
    } else {
      StepEnqueues(c, s, e);
    }
  }

  lemma {:induction false} RunFixesSaves(c: Config, s: State, es: seq<Event>, n: nat)
    requires Inv(c, s)
    ensures
      var t := After(c, s, es);
      && Inv(c, t) && s.saveSeq <= t.saveSeq
      && (n <= s.saveSeq && n in t.saves ==> n in s.saves && t.saves[n] == s.saves[n])
  {
    if es != [] {
      var mid := After(c, s, es[..|es| - 1]);
      RunFixesSaves(c, s, es[..|es| - 1], n);
      StepFixesSaves(c, mid, es[|es| - 1], n);
      StepKeepsInv(c, mid, es[|es| - 1]);
    }
  }

  // ----- a failed hand-off raises the banner -----

  /** The banner shows `f`, and a newest save still in flight is a retry of it. */
  ghost predicate Held(s: State, f: Failure) {
    && s.failure == Some(f)
    && (s.saving && s.saveSeq in s.saves ==>
          s.saves[s.saveSeq].copy == f.copy && s.saves[s.saveSeq].afterHandoff == f.afterHandoff)
  }

  lemma OpeningSubmitsTheOpenedCopy(c: Config, s: State, e: Event)
    requires OpensClient(c, s, e).Some? && Submits(c, s, e).Some?
    ensures Submits(c, s, e).value.copy == OpensClient(c, s, e).value && Submits(c, s, e).value.afterHandoff
  {}

  /** The newest save is answered in any way: its banner is up exactly when it was refused, or threw with
      that banner up already. */
  lemma NewestAnswerBanner(c: Config, s: State, reply: SaveReply)
    requires Books(s) && s.saveSeq in s.saves
    ensures
      var request := s.saves[s.saveSeq];
      var f := Failure(request.copy, request.afterHandoff);
      Step(c, s, SaveSettles(s.saveSeq, reply)).failure == Some(f)
      <==> reply.SaveRejected? || (reply.SaveThrows? && s.failure == Some(f))
  {
    AnswerStaysOnScreen(s, s.saveSeq, reply);
  }

  lemma AnswerStaysOnScreen(s: State, n: nat, reply: SaveReply)
    ensures SelectedKey(SaveSettled(s, n, reply)) == SelectedKey(s)
  {
    if n in s.saves {
      assert Reshaped(s.drafts, SaveSettled(s, n, reply).drafts, None);
      ReshapedSelected(s.drafts, SaveSettled(s, n, reply).drafts, None, s.selectedId);
    }
  }

  /** Until it is answered, the save of a hand-off is in flight with the opened copy. */
  lemma HandoffInFlight(c: Config, s: State, open: Event, es: seq<Event>)
    requires Inv(c, s) && OpensClient(c, s, open).Some? && Submits(c, s, open).Some?
    requires
      var t := After(c, Step(c, s, open), es);
      t.saveSeq == Step(c, s, open).saveSeq && t.saveSeq in t.saves
    ensures
      var t := After(c, Step(c, s, open), es);
      Inv(c, t) && t.saves[t.saveSeq].copy == OpensClient(c, s, open).value && t.saves[t.saveSeq].afterHandoff
  {
    var begun := Step(c, s, open);
    StepEnqueues(c, s, open);
    StepKeepsInv(c, s, open);
    OpeningSubmitsTheOpenedCopy(c, s, open);
    RunFixesSaves(c, begun, es, begun.saveSeq);
  }

  /** The client is opened with a copy of an unsent draft; whatever happens next, if no newer save has
      been started when the save of that hand-off is answered: the banner holds exactly the opened copy if and
      only if the answer is a refusal, or a throw with that banner up from before. A throw raises none. */
  lemma FailedHandoffHoldsTheOpenedCopy(c: Config, s: State, open: Event, es: seq<Event>, reply: SaveReply)
    requires Inv(c, s) && OpensClient(c, s, open).Some? && Submits(c, s, open).Some?
    requires
      var t := After(c, Step(c, s, open), es);
      t.saveSeq == Step(c, s, open).saveSeq && t.saveSeq in t.saves
    ensures
      var t := After(c, Step(c, s, open), es);
      var f := Failure(OpensClient(c, s, open).value, true);
      Step(c, t, SaveSettles(t.saveSeq, reply)).failure == Some(f)
      <==> reply.SaveRejected? || (reply.SaveThrows? && t.failure == Some(f))
  {
    HandoffInFlight(c, s, open, es);
    NewestAnswerBanner(c, After(c, Step(c, s, open), es), reply);
  }

  // ----- the banner outlives everything but an answer to it -----

  /** What may take the banner down or put up another: another save is started, the newest one succeeds,
      another draft is opened, a draft is generated, or a mark or connected send is answered. */
  ghost predicate Supersedes(c: Config, s: State, e: Event) {
    || (e != PressRetry && Submits(c, s, e).Some?)
    || (e.SaveSettles? && e.seqNo == s.saveSeq && e.saveReply.SaveOk?)
    || SelectedKey(Step(c, s, e)) != SelectedKey(s)
    || e.GenerationSettles? || e.MarkSaveSettles? || e.ConnectedSettles?
  }

  lemma AnswerKeepsBanner(c: Config, s: State, n: nat, reply: SaveReply, f: Failure)
    requires Books(s) && Held(s, f) && !(n == s.saveSeq && reply.SaveOk?)
    ensures Held(SaveSettled(s, n, reply), f)
  {}

  lemma StepKeepsBanner(c: Config, s: State, e: Event, f: Failure)
    requires Inv(c, s) && Held(s, f) && !Supersedes(c, s, e)
    ensures Held(Step(c, s, e), f)
  {
    EffectsLeaveSaves(c, s, Handle(c, s, e), e == AutosaveFires);
    HandleKeeps(c, s, e);
    if e.SaveSettles? {
      AnswerKeepsBanner(c, s, e.seqNo, e.saveReply, f);
    } else {
      StepEnqueues(c, s, e);
    }
  }

  /** A save begun while the banner stands is a retry of what is on it. */
  lemma SubmitsTheBanner(c: Config, s: State, e: Event, f: Failure)
    requires Held(s, f) && !Supersedes(c, s, e) && Submits(c, s, e).Some?
    ensures e == PressRetry && Submits(c, s, e).value == SaveRequest(f.copy, s.selectedLength, f.afterHandoff)
  {}

  ghost predicate NeverSuperseded(c: Config, s: State, es: seq<Event>) {
    es != [] ==>
      var pre := es[..|es| - 1];
      NeverSuperseded(c, s, pre) && !Supersedes(c, After(c, s, pre), es[|es| - 1])
  }

  lemma {:induction false} NeverSupersededAt(c: Config, s: State, es: seq<Event>, i: nat)
    requires NeverSuperseded(c, s, es) && i <= |es|
    ensures NeverSuperseded(c, s, es[..i])
  {
    if i < |es| {
      NeverSupersededAt(c, s, es[..|es| - 1], i);
      assert es[..|es| - 1][..i] == es[..i];
    } else {
      assert es[..i] == es;
    }
  }

  /** Any number of failed retries, interleaved with anything that does not supersede the banner, leaves
      the same copy and flag on it. */
  lemma {:induction false} BannerSurvives(c: Config, s: State, es: seq<Event>, f: Failure)
    requires Inv(c, s) && Held(s, f) && NeverSuperseded(c, s, es)
    ensures Inv(c, After(c, s, es)) && Held(After(c, s, es), f)
  {
    if es != [] {
      var pre := es[..|es| - 1];
      BannerSurvives(c, s, pre, f);
      StepKeepsBanner(c, After(c, s, pre), es[|es| - 1], f);
      StepKeepsInv(c, After(c, s, pre), es[|es| - 1]);
    }
  }

  /** Every save that such a run begins is a retry, of that copy and with that flag. */
  lemma RetriesSubmitTheBanner(c: Config, s: State, es: seq<Event>, f: Failure, i: nat)
    requires Inv(c, s) && Held(s, f) && NeverSuperseded(c, s, es)
    requires i < |es| && Submits(c, Before(c, s, es, i), es[i]).Some?
    ensures
      var request := Submits(c, Before(c, s, es, i), es[i]).value;
      es[i] == PressRetry && request.copy == f.copy && request.afterHandoff == f.afterHandoff
  {
    NeverSupersededAt(c, s, es, i + 1);
    assert es[..i + 1][..i] == es[..i];
    BannerSurvives(c, s, es[..i], f);
    SubmitsTheBanner(c, Before(c, s, es, i), es[i], f);
  }

  /** A refusal of the newest save puts up the banner that later retries hold. */
  lemma RefusalHolds(c: Config, s: State)
    requires Books(s) && s.saveSeq in s.saves
    ensures
      var request := s.saves[s.saveSeq];
      Held(Step(c, s, SaveSettles(s.saveSeq, SaveRejected)), Failure(request.copy, request.afterHandoff))
  {
    NewestAnswerBanner(c, s, SaveRejected);
  }

  /** The states of a hand-off that goes wrong: the client is opened, anything but a newer save happens, and
      then the save of the hand-off is refused. */
  function RefusedHandoff(c: Config, s: State, open: Event, es: seq<Event>): State {
    var t := After(c, Step(c, s, open), es);
    Step(c, t, SaveSettles(t.saveSeq, SaveRejected))
  }

  /** From the opening of a client over the refusal of its save and through any number of failed retries, among
      anything that does not supersede the banner: the banner holds the copy the client was opened with, and
      every save begun since the refusal submits exactly that copy, as one that was handed off. */
  lemma OpenedCopyIsKept(c: Config, s: State, open: Event, es: seq<Event>, later: seq<Event>)
    requires Inv(c, s) && OpensClient(c, s, open).Some? && Submits(c, s, open).Some?
    requires
      var t := After(c, Step(c, s, open), es);
      t.saveSeq == Step(c, s, open).saveSeq && t.saveSeq in t.saves
    requires NeverSuperseded(c, RefusedHandoff(c, s, open, es), later)
    ensures
      var copy, refused := OpensClient(c, s, open).value, RefusedHandoff(c, s, open, es);
      && After(c, refused, later).failure == Some(Failure(copy, true))
      && forall i :: 0 <= i < |later| && Submits(c, Before(c, refused, later, i), later[i]).Some? ==>
           var request := Submits(c, Before(c, refused, later, i), later[i]).value;
           later[i] == PressRetry && request.copy == copy && request.afterHandoff
  {
    var t, refused := After(c, Step(c, s, open), es), RefusedHandoff(c, s, open, es);
    var f := Failure(OpensClient(c, s, open).value, true);
    HandoffInFlight(c, s, open, es);
    RefusalHolds(c, t);
    StepKeepsInv(c, t, SaveSettles(t.saveSeq, SaveRejected));
    BannerSurvives(c, refused, later, f);
    forall i | 0 <= i < |later| && Submits(c, Before(c, refused, later, i), later[i]).Some?
      ensures
        var request := Submits(c, Before(c, refused, later, i), later[i]).value;
        later[i] == PressRetry && request.copy == f.copy && request.afterHandoff
    {
      RetriesSubmitTheBanner(c, refused, later, f, i);
    }
  }

  // ----- when a banner is lost -----

  /** What takes a banner down, or puts another one in its place: another draft on screen, a generated draft,
      the success of the newest save of its draft or of a send, and the refusal of another text. */
  predicate TakesDown(c: Config, s: State, e: Event, f: Failure) {
    match e
    case SelectDraft(_) => SelectedKey(Handle(c, s, e)) != SelectedKey(s)
    case ReturnToLatest => SelectedKey(Handle(c, s, e)) != SelectedKey(s)
    case GenerationSettles(r) => s.generating.Some? && CarriesDraft(r)
    case SaveSettles(n, reply) =>
      && n in s.saves && n == s.saveSeq
      && ((reply.SaveOk? && s.saves[n].copy.id == f.copy.id)
          || (reply.SaveRejected? && Failure(s.saves[n].copy, s.saves[n].afterHandoff) != f))
    case MarkSaveSettles(reply) =>
      && s.send.Some? && s.send.value.MarkSaving?
      && (reply.SaveOk? || (reply.SaveRejected? && Failure(s.send.value.copy, true) != f))
    case ConnectedSettles(reply) =>
      s.send.Some? && s.send.value.Connecting? && reply.ConnectedOk? && reply.sentAt != ""
    case _ => false
  }

  lemma SelectionTakesDown(c: Config, s: State, e: Event, f: Failure)
    requires s.failure == Some(f) && (e.SelectDraft? || e.ReturnToLatest?)
    ensures Step(c, s, e).failure == Some(f) <==> !TakesDown(c, s, e, f)
  {}

  lemma GenerationTakesDown(c: Config, s: State, r: GenerationReply, f: Failure)
    requires s.failure == Some(f)
    ensures Step(c, s, GenerationSettles(r)).failure == Some(f) <==> !TakesDown(c, s, GenerationSettles(r), f)
  {}

  lemma SaveTakesDown(c: Config, s: State, n: nat, reply: SaveReply, f: Failure)
    requires s.failure == Some(f)
    ensures Step(c, s, SaveSettles(n, reply)).failure == Some(f) <==> !TakesDown(c, s, SaveSettles(n, reply), f)
  {
    AnswerStaysOnScreen(s, n, reply);
  }

  lemma SelectionStays(c: Config, s: State, e: Event)
    requires Inv(c, s) && !Reselects(e)
    ensures SelectedKey(Handle(c, s, e)) == SelectedKey(s)
  {
    HandleGood(c, s, e);
    ReshapedSelected(s.drafts, Handle(c, s, e).drafts, SentBy(s, e), s.selectedId);
  }

  lemma MarkSaveTakesDown(c: Config, s: State, reply: SaveReply, f: Failure)
    requires Inv(c, s) && s.failure == Some(f)
    ensures Step(c, s, MarkSaveSettles(reply)).failure == Some(f) <==> !TakesDown(c, s, MarkSaveSettles(reply), f)
  {
    SelectionStays(c, s, MarkSaveSettles(reply));
  }

  lemma SendTakesDown(c: Config, s: State, reply: ConnectedReply, f: Failure)
    requires Inv(c, s) && s.failure == Some(f)
    ensures Step(c, s, ConnectedSettles(reply)).failure == Some(f) <==> !TakesDown(c, s, ConnectedSettles(reply), f)
  {
    SelectionStays(c, s, ConnectedSettles(reply));
  }

  lemma OthersLeaveIt(c: Config, s: State, e: Event)
    requires Inv(c, s) && !Reselects(e) && !BannerEvent(e)
    ensures Step(c, s, e).failure == s.failure
  {
    HandleGood(c, s, e);
    SelectionStays(c, s, e);
  }

  /** A banner stays up exactly until one of these events; opening another draft is one of them, and then
      nothing shows any more that the copy given to a client was not saved. */
  lemma BannerLostExactly(c: Config, s: State, e: Event, f: Failure)
    requires Inv(c, s) && s.failure == Some(f)
    ensures Step(c, s, e).failure == Some(f) <==> !TakesDown(c, s, e, f)
  {
    match e
    case SelectDraft(_) => SelectionTakesDown(c, s, e, f);
    case ReturnToLatest => SelectionTakesDown(c, s, e, f);
    case GenerationSettles(r) => GenerationTakesDown(c, s, r, f);
    case SaveSettles(n, reply) => SaveTakesDown(c, s, n, reply, f);
    case MarkSaveSettles(reply) => MarkSaveTakesDown(c, s, reply, f);
    case ConnectedSettles(reply) => SendTakesDown(c, s, reply, f);
    case _ => OthersLeaveIt(c, s, e);
  }

  // ----- the banner never names a copy that did not leave -----

  ghost predicate OpenedAt(c: Config, s0: State, es: seq<Event>, k: nat, copy: Copy) {
    k < |es| && OpensClient(c, Before(c, s0, es, k), es[k]) == Some(copy)
  }

  /** The client was opened with `copy`, or the user said that `copy` was sent. */
  ghost predicate HandedOff(c: Config, s0: State, es: seq<Event>, copy: Copy) {
    exists k: nat :: OpenedAt(c, s0, es, k, copy) || MarkPressedAt(c, s0, es, k, copy)
  }

  ghost predicate ClaimsAreTrue(c: Config, s0: State, es: seq<Event>) {
    var s := After(c, s0, es);
    && (forall n :: n in s.saves && s.saves[n].afterHandoff ==> HandedOff(c, s0, es, s.saves[n].copy))
    && (s.failure.Some? && s.failure.value.afterHandoff ==> HandedOff(c, s0, es, s.failure.value.copy))
  }

  lemma HandedOffExtends(c: Config, s0: State, es: seq<Event>, copy: Copy)
    requires es != [] && HandedOff(c, s0, es[..|es| - 1], copy)
    ensures HandedOff(c, s0, es, copy)
  {
    var pre := es[..|es| - 1];
    var k: nat :| OpenedAt(c, s0, pre, k, copy) || MarkPressedAt(c, s0, pre, k, copy);
    assert pre[..k] == es[..k];
    assert OpenedAt(c, s0, es, k, copy) || MarkPressedAt(c, s0, es, k, copy);
  }

  /** A banner is the one that was up, or shows the request whose rejection has just arrived. */
  ghost predicate BannerAccounted(s: State, t: State) {
    || t.failure == None || t.failure == s.failure
    || (s.saveSeq in s.saves
        && t.failure == Some(Failure(s.saves[s.saveSeq].copy, s.saves[s.saveSeq].afterHandoff)))
    || (s.send.Some? && s.send.value.MarkSaving? && t.failure == Some(Failure(s.send.value.copy, true)))
  }

  lemma SaveAnswerAccounted(s: State, n: nat, reply: SaveReply)
    ensures BannerAccounted(s, SaveSettled(s, n, reply))
  {}

  lemma MarkSaveAnswerAccounted(s: State, reply: SaveReply)
    ensures BannerAccounted(s, MarkSaveSettled(s, reply))
  {}

  lemma SuccessAccounted(s: State, reply: ConnectedReply, r: GenerationReply)
    ensures BannerAccounted(s, ConnectedSettled(s, reply)) && BannerAccounted(s, GenerationSettled(s, r))
  {}

  lemma EffectsAccounted(c: Config, before: State, s: State, fired: bool)
    requires BannerAccounted(before, s)
    ensures BannerAccounted(before, Rearm(c, before, LeaveDraft(before, s), fired))
  {}

  lemma HandleAccounted(c: Config, s: State, e: Event)
    requires BannerEvent(e)
    ensures BannerAccounted(s, Handle(c, s, e))
  {
    match e
    case SaveSettles(n, reply) => SaveAnswerAccounted(s, n, reply);
    case MarkSaveSettles(reply) => MarkSaveAnswerAccounted(s, reply);
    case ConnectedSettles(reply) => SuccessAccounted(s, reply, GenerationThrows);
    case GenerationSettles(r) => SuccessAccounted(s, ConnectedThrows, r);
  }

  lemma StepAccounted(c: Config, s: State, e: Event)
    requires Inv(c, s)
    ensures BannerAccounted(s, Step(c, s, e))
  {
    if BannerEvent(e) { HandleAccounted(c, s, e); } else { HandleKeeps(c, s, e); }
    EffectsAccounted(c, s, Handle(c, s, e), e == AutosaveFires);
  }

  lemma NewSaveIsTrue(c: Config, s0: State, es: seq<Event>)
    requires es != []
    requires
      var s, e := After(c, s0, es[..|es| - 1]), es[|es| - 1];
      && Submits(c, s, e).Some? && Submits(c, s, e).value.afterHandoff && TimerFresh(c, s)
      && (s.failure.Some? && s.failure.value.afterHandoff ==> HandedOff(c, s0, es, s.failure.value.copy))
    ensures
      var s, e := After(c, s0, es[..|es| - 1]), es[|es| - 1];
      HandedOff(c, s0, es, Submits(c, s, e).value.copy)
  {
    var n := |es| - 1;
    var s, e := After(c, s0, es[..n]), es[n];
    if e != PressRetry {
      assert OpenedAt(c, s0, es, n, Submits(c, s, e).value.copy);
    }
  }

  lemma MarkSavingHandedOff(c: Config, s0: State, es: seq<Event>, call: SendCall)
    requires es != [] && call.MarkSaving? && Traced(c, s0, es[..|es| - 1], call)
    ensures HandedOff(c, s0, es, call.copy)
  {
    TraceExtends(c, s0, es, call);
    var i: nat :| MarkPressedAt(c, s0, es, i, call.copy);
    assert OpenedAt(c, s0, es, i, call.copy) || MarkPressedAt(c, s0, es, i, call.copy);
  }

  /** A number beyond the last one is in flight only if the event submitted it. */
  lemma NumbersFollow(c: Config, s: State, e: Event)
    requires Inv(c, s)
    ensures e.SaveSettles? ==> forall k :: k in Step(c, s, e).saves ==> k <= s.saveSeq
  {
    if e.SaveSettles? {
      forall k | k in Step(c, s, e).saves ensures k <= s.saveSeq {
        AnswerFixesSaves(s, e.seqNo, e.saveReply, k);
        EffectsLeaveSaves(c, s, SaveSettled(s, e.seqNo, e.saveReply), false);
      }
    }
  }

  lemma SaveClaimIsTrue(c: Config, s0: State, es: seq<Event>, k: nat)
    requires es != [] && Inv(c, After(c, s0, es[..|es| - 1])) && ClaimsAreTrue(c, s0, es[..|es| - 1])
    requires k in After(c, s0, es).saves && After(c, s0, es).saves[k].afterHandoff
    ensures HandedOff(c, s0, es, After(c, s0, es).saves[k].copy)
  {
    var s, e := After(c, s0, es[..|es| - 1]), es[|es| - 1];
    if k <= s.saveSeq {
      StepFixesSaves(c, s, e, k);
      HandedOffExtends(c, s0, es, s.saves[k].copy);
    } else {
      NumbersFollow(c, s, e);
      StepEnqueues(c, s, e);
      if s.failure.Some? && s.failure.value.afterHandoff { HandedOffExtends(c, s0, es, s.failure.value.copy); }
      NewSaveIsTrue(c, s0, es);
    }
  }

  lemma BannerClaimIsTrue(c: Config, s0: State, es: seq<Event>)
    requires es != [] && Inv(c, After(c, s0, es[..|es| - 1])) && ClaimsAreTrue(c, s0, es[..|es| - 1])
    requires
      var call := After(c, s0, es[..|es| - 1]).send;
      call.Some? ==> Traced(c, s0, es[..|es| - 1], call.value)
    ensures
      var f := After(c, s0, es).failure;
      f.Some? && f.value.afterHandoff ==> HandedOff(c, s0, es, f.value.copy)
  {
    var s, e := After(c, s0, es[..|es| - 1]), es[|es| - 1];
    StepAccounted(c, s, e);
    if s.failure.Some? && s.failure.value.afterHandoff { HandedOffExtends(c, s0, es, s.failure.value.copy); }
    if s.send.Some? && s.send.value.MarkSaving? { MarkSavingHandedOff(c, s0, es, s.send.value); }
    if s.saveSeq in s.saves && s.saves[s.saveSeq].afterHandoff {
      HandedOffExtends(c, s0, es, s.saves[s.saveSeq].copy);
    }
  }

  /** In every run, a banner that says its text was used for a send names a copy that the email client
      was opened with, or that was on screen when the user said it was sent. */
  lemma {:induction false} HandoffBannerIsTrue(c: Config, drafts: seq<Draft>, length: Length, es: seq<Event>)
    requires DistinctIds(drafts)
    ensures ClaimsAreTrue(c, Mounted(drafts, length), es)
  {
    if es != [] {
      var s0 := Mounted(drafts, length);
      HandoffBannerIsTrue(c, drafts, length, es[..|es| - 1]);
      RunKeepsInv(c, drafts, length, es[..|es| - 1]);
      SendIsTraced(c, drafts, length, es[..|es| - 1]);
      BannerClaimIsTrue(c, s0, es);
      forall k | k in After(c, s0, es).saves && After(c, s0, es).saves[k].afterHandoff
        ensures HandedOff(c, s0, es, After(c, s0, es).saves[k].copy)
      {
        SaveClaimIsTrue(c, s0, es, k);
      }
    }
  }
}
