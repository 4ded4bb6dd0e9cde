/** What every run of the draft protocol guarantees about saving: what an answer may touch, what the
    autosave holds, and exactly when an edit is left with nobody to save it. */
module DraftSafety {
  import opened Collections
  import opened DraftProtocol
  import opened DraftBookkeeping

  // ----- saves -----

  /** `saving` is shown exactly while the newest save is in flight, whatever the interleaving. */
  lemma SavingMeansNewestInFlight(c: Config, drafts: seq<Draft>, length: Length, es: seq<Event>)
    requires DistinctIds(drafts)
    ensures
      var s := After(c, Mounted(drafts, length), es);
      && (s.saving <==> s.saveSeq in s.saves)
      && (forall n :: n in s.saves ==> n <= s.saveSeq)
  {
    RunKeepsInv(c, drafts, length, es);
  }

  /** The answer to any save but the newest leaves the edit mark, the banner, the prompt and the
      `saving` flag alone; all it may do is write its own text back. */
  lemma StaleAnswerIsInert(c: Config, s: State, n: nat, reply: SaveReply)
    requires n in s.saves && n != s.saveSeq
    ensures
      var t := Step(c, s, SaveSettles(n, reply));
      && t.dirty == s.dirty && t.failure == s.failure && t.saving == s.saving
      && t.awaitingConfirm == s.awaitingConfirm && t.saveSeq == s.saveSeq && t.saves == s.saves - {n}
      && t.selectedId == s.selectedId && t.drafts == WriteBack(s.drafts, s.saves[n].copy.id, reply)
  {
    ReshapedSelected(s.drafts, WriteBack(s.drafts, s.saves[n].copy.id, reply), None, s.selectedId);
  }

  /** An armed autosave submits exactly the text on screen, never for a draft that is SENT or sending. */
  lemma AutosaveSubmitsTheScreen(c: Config, drafts: seq<Draft>, length: Length, es: seq<Event>)
    requires DistinctIds(drafts)
    ensures
      var s := After(c, Mounted(drafts, length), es);
      s.timer.Some? ==>
        var t := Step(c, s, AutosaveFires);
        && Editable(s) && s.dirty && !c.readOnly && !c.suppressed
        && t.saveSeq == s.saveSeq + 1 && t.saving
        && t.saves == s.saves[t.saveSeq := SaveRequest(OnScreen(s).value, s.selectedLength, false)]
        && t.drafts == s.drafts && t.timer == None
  {
    RunKeepsInv(c, drafts, length, es);
  }

  // ----- the edit mark (what becomes of the text itself is the subject of `DraftUnsaved`) -----

  /** While the edit mark stands on an editable draft, a timer is running, a save is in flight or a banner is up. */
  ghost predicate MarkCovered(s: State) {
    s.dirty && Editable(s) ==> s.timer.Some? || s.saving || s.failure.Some?
  }

  /** No autosave runs in an archived campaign, or for a suppressed contact. */
  predicate NoAutosave(c: Config) {
    c.readOnly || c.suppressed
  }

  /** A change of text or length that marks an editable draft. */
  predicate Marks(s: State, e: Event) {
    && (e.Edit? || e.ChooseLength?) && Editable(s) && !SendLocked(s)
    && (e.Edit? ==> e.newSubject.Some? || e.newBody.Some?)
  }

  /** What strands the mark: the newest save fails without an answer, with no later edit waiting and no
      banner up; or a draft is edited where no autosave runs, with no save in flight and no banner up. */
  ghost predicate Strands(c: Config, s: State, e: Event) {
    || (e == SaveSettles(s.saveSeq, SaveThrows) && s.saveSeq in s.saves
        && s.dirty && Editable(s) && s.timer.None? && s.failure.None?)
    || (NoAutosave(c) && Marks(s, e) && !s.saving && s.failure.None?)
  }

  lemma EffectsKeepCover(c: Config, before: State, s: State, fired: bool)
    requires !NoAutosave(c)
    requires MarkCovered(before) && StaysEditable(before, s) && KeepsCover(before, s) && (fired ==> s.saving)
    ensures MarkCovered(Rearm(c, before, LeaveDraft(before, s), fired))
  {}

  lemma ThrownSave(c: Config, s: State)
    requires Inv(c, s) && MarkCovered(s)
    ensures var e := SaveSettles(s.saveSeq, SaveThrows); MarkCovered(Step(c, s, e)) <==> !Strands(c, s, e)
  {}

  // ----- where no autosave runs -----

  lemma OnlyMarkingMarks(c: Config, s: State, e: Event)
    requires !e.Edit? && !e.ChooseLength?
    ensures Handle(c, s, e).dirty ==> s.dirty
  {}

  lemma EditableBefore(c: Config, s: State, e: Event)
    requires Inv(c, s) && !Reselects(e)
    ensures SelectedKey(Handle(c, s, e)) == SelectedKey(s) && (Editable(Handle(c, s, e)) ==> Editable(s))
  {
    HandleGood(c, s, e);
    ReshapedSelected(s.drafts, Handle(c, s, e).drafts, SentBy(s, e), s.selectedId);
  }

  /** A draft that stays on screen when another one could have been put there. */
  lemma EditableOnReselection(c: Config, s: State, e: Event)
    requires Inv(c, s) && Reselects(e) && Handle(c, s, e).dirty && SelectedKey(Handle(c, s, e)) == SelectedKey(s)
    ensures Editable(Handle(c, s, e)) ==> Editable(s)
  {
    var h := Handle(c, s, e);
    if Selected(s).Some? && h.drafts == s.drafts {
      SelectedListed(s.drafts, s.selectedId);
      SelectedListed(s.drafts, h.selectedId);
      OnePerTag(s.drafts, IdOf, Selected(s).value, Selected(h).value);
    }
  }

  /** The effects, where no autosave runs. */
  lemma EffectsWithoutAutosave(c: Config, before: State, h: State, fired: bool)
    requires NoAutosave(c) && before.timer.None?
    ensures
      var t := Rearm(c, before, LeaveDraft(before, h), fired);
      && t.timer.None? && t.saving == h.saving
      && if SelectedKey(h) == SelectedKey(before)
         then t.dirty == h.dirty && Editable(t) == Editable(h) && t.failure == h.failure else !t.dirty
  {}

  lemma MarkingExactly(c: Config, s: State, e: Event)
    requires Inv(c, s) && MarkCovered(s) && NoAutosave(c) && (e.Edit? || e.ChooseLength?)
    ensures MarkCovered(Step(c, s, e)) <==> !Strands(c, s, e)
  {
    EffectsWithoutAutosave(c, s, Handle(c, s, e), false);
    EditableBefore(c, s, e);
    MarkingFacts(c, s, e);
  }

  lemma MarkingFacts(c: Config, s: State, e: Event)
    requires Inv(c, s) && (e.Edit? || e.ChooseLength?)
    ensures
      var h := Handle(c, s, e);
      && h.saving == s.saving && h.failure == s.failure && Editable(h) == Editable(s)
      && (Editable(s) ==> h.dirty == (s.dirty || Marks(s, e)))
  {
    HandleGood(c, s, e);
    ReshapedSelected(s.drafts, Handle(c, s, e).drafts, None, s.selectedId);
  }

  lemma OthersKeepCover(c: Config, s: State, e: Event)
    requires Inv(c, s) && MarkCovered(s) && NoAutosave(c) && !e.Edit? && !e.ChooseLength? && !NewestThrows(s, e)
    ensures MarkCovered(Step(c, s, e))
  {
    var h := Handle(c, s, e);
    EffectsWithoutAutosave(c, s, h, e == AutosaveFires);
    HandleKeeps(c, s, e);
    OnlyMarkingMarks(c, s, e);
    if h.dirty && SelectedKey(h) == SelectedKey(s) {
      if Reselects(e) { EditableOnReselection(c, s, e); } else { EditableBefore(c, s, e); }
    }
  }

  /** A covered mark stays covered, except in exactly the cases of `Strands`. */
  lemma MarkCoverLostExactlyWhenStranded(c: Config, s: State, e: Event)
    requires Inv(c, s) && MarkCovered(s)
    ensures MarkCovered(Step(c, s, e)) <==> !Strands(c, s, e)
  {
    if NewestThrows(s, e) {
      ThrownSave(c, s);
    } else if !NoAutosave(c) {
      HandleKeeps(c, s, e);
      EffectsKeepCover(c, s, Handle(c, s, e), e == AutosaveFires && s.timer.Some?);
    } else if e.Edit? || e.ChooseLength? {
      MarkingExactly(c, s, e);
    } else {
      OthersKeepCover(c, s, e);
    }
  }

  /** Unless one of these events happens, no run leaves the edit mark up with nothing to take it down. */
  lemma {:induction false} MarkedEditsAreNeverSilent(c: Config, drafts: seq<Draft>, length: Length, es: seq<Event>)
    requires DistinctIds(drafts)
    requires forall i :: 0 <= i < |es| ==> !Strands(c, After(c, Mounted(drafts, length), es[..i]), es[i])
    ensures MarkCovered(After(c, Mounted(drafts, length), es))
  {
    if es != [] {
      var n := |es| - 1;
      forall i | 0 <= i < n ensures !Strands(c, After(c, Mounted(drafts, length), es[..n][..i]), es[..n][i]) {
        assert es[..n][..i] == es[..i];
      }
      MarkedEditsAreNeverSilent(c, drafts, length, es[..n]);
      RunKeepsInv(c, drafts, length, es[..n]);
      MarkCoverLostExactlyWhenStranded(c, After(c, Mounted(drafts, length), es[..n]), es[n]);
    }
  }

  // ----- two things the screen does not guarantee, with the exact condition or the run that shows it -----

  lemma AfterNext(c: Config, s: State, es: seq<Event>, e: Event)
    ensures After(c, s, es + [e]) == Step(c, After(c, s, es), e)
  {
    assert (es + [e])[..|es|] == es;
  }

  /** The server stored what it was sent. The text on screen survives that answer exactly when the
      draft on screen is another one or still shows what was submitted: there is no such test in
      `persistDraft`, so anything typed in between is replaced. */
  lemma EchoedSaveKeepsScreen(c: Config, s: State, n: nat)
    requires n in s.saves && OnScreen(s).Some?
    requires s.saves[n].copy.subject != "" && s.saves[n].copy.body != ""
    ensures
      var copy := s.saves[n].copy;
      OnScreen(Step(c, s, SaveSettles(n, SaveOk(copy.subject, copy.body)))) == OnScreen(s)
      <==> OnScreen(s).value.id != copy.id || OnScreen(s).value == copy
  {
    var copy := s.saves[n].copy;
    var reply := SaveOk(copy.subject, copy.body);
    WrittenBackOnScreen(s.drafts, copy, s.selectedId);
    AnsweredScreen(s, n, reply);
    EffectsKeepScreen(c, s, SaveSettles(n, reply));
  }

  lemma EffectsKeepScreen(c: Config, s: State, e: Event)
    ensures Step(c, s, e).drafts == Handle(c, s, e).drafts && Step(c, s, e).selectedId == Handle(c, s, e).selectedId
  {}

  lemma AnsweredScreen(s: State, n: nat, reply: SaveReply)
    requires n in s.saves
    ensures SaveSettled(s, n, reply).drafts == WriteBack(s.drafts, s.saves[n].copy.id, reply)
    ensures SaveSettled(s, n, reply).selectedId == s.selectedId
  {}

  lemma WrittenBackOnScreen(drafts: seq<Draft>, copy: Copy, selectedId: Option<string>)
    requires copy.subject != "" && copy.body != "" && SelectedOf(drafts, selectedId).Some?
    ensures
      var was, now := SelectedOf(drafts, selectedId),
                      SelectedOf(WriteBack(drafts, copy.id, SaveOk(copy.subject, copy.body)), selectedId);
      now.Some? && CopyOf(now.value) == if was.value.id == copy.id then copy else CopyOf(was.value)
  {
    if selectedId.Some? { WrittenBackFind(drafts, copy, selectedId.value); }
  }

  lemma {:induction false} WrittenBackFind(drafts: seq<Draft>, copy: Copy, id: string)
    requires copy.subject != "" && copy.body != ""
    ensures
      var was := FindBy(drafts, IdOf, id);
      var now := FindBy(WriteBack(drafts, copy.id, SaveOk(copy.subject, copy.body)), IdOf, id);
      (was.Some? <==> now.Some?)
      && (was.Some? ==> CopyOf(now.value) == if was.value.id == copy.id then copy else CopyOf(was.value))
  {
    if drafts != [] {
      var reply := SaveOk(copy.subject, copy.body);
      assert WriteBack(drafts, copy.id, reply)[1..] == WriteBack(drafts[1..], copy.id, reply);
      WrittenBackFind(drafts[1..], copy, id);
    }
  }

  const OPEN_SCREEN := Config(false, false, true, true)

  function OneDraft(body: string): Draft {
    Draft("d", 1, "Hello", body, Drafted, None, None, None)
  }

  function SaveOf(body: string): SaveRequest {
    SaveRequest(Copy("d", "Hello", body), Medium, false)
  }

  /** The screen showing `OneDraft(body)`, unsaved, with autosave armed. */
  function Typed(body: string): State {
    Mounted([OneDraft(body)], Medium).(dirty := true, timer := Some(SaveOf(body)))
  }

  /** The same after the autosave has fired. */
  function Submitted(body: string): State {
    Typed(body).(timer := None, saving := true, saveSeq := 1, saves := map[1 := SaveOf(body)])
  }

  lemma Types(s: State, body: string, next: string)
    requires s.drafts == [OneDraft(body)] && s.selectedId == Some("d") && s.selectedLength == Medium
    requires !SendLocked(s) && next != body
    ensures Step(OPEN_SCREEN, s, Edit(None, Some(next)))
            == s.(drafts := [OneDraft(next)], dirty := true, timer := Some(SaveOf(next)))
  {
    var t := Edited(s, None, Some(next));
    assert t.drafts == [OneDraft(next)];
  }

  lemma Autosaves(body: string)
    ensures Step(OPEN_SCREEN, Typed(body), AutosaveFires) == Submitted(body)
  {}

  lemma LosesAnswer(body: string)
    ensures Step(OPEN_SCREEN, Submitted(body), SaveSettles(1, SaveThrows))
            == Submitted(body).(saving := false, saves := map[])
  {
    assert Submitted(body).saves - {1} == map[];
  }

  lemma TypedThenSubmitted(body: string)
    requires body != ""
    ensures After(OPEN_SCREEN, Mounted([OneDraft("")], Medium), [Edit(None, Some(body)), AutosaveFires]) == Submitted(body)
  {
    var s0, e := Mounted([OneDraft("")], Medium), Edit(None, Some(body));
    AfterNext(OPEN_SCREEN, s0, [], e);
    AfterNext(OPEN_SCREEN, s0, [e], AutosaveFires);
    assert [] + [e] == [e] && [e] + [AutosaveFires] == [e, AutosaveFires];
    Types(s0, "", body);
    Autosaves(body);
  }

  lemma AbandonedIsUncovered(body: string)
    ensures !MarkCovered(Submitted(body).(saving := false, saves := map[]))
  {}

  /** An edit, its autosave, and an answer that never arrives: the edit stays unsaved with no timer,
      no save in flight and no banner. */
  lemma LostAnswerStrandsAnEdit(es: seq<Event>)
    requires es == [Edit(None, Some("One")), AutosaveFires] + [SaveSettles(1, SaveThrows)]
    ensures !MarkCovered(After(OPEN_SCREEN, Mounted([OneDraft("")], Medium), es))
  {
    AbandonedIsUncovered("One");
    var first := [Edit(None, Some("One")), AutosaveFires];
    TypedThenSubmitted("One");
    AfterNext(OPEN_SCREEN, Mounted([OneDraft("")], Medium), first, SaveSettles(1, SaveThrows));
    LosesAnswer("One");
  }

  const ARCHIVED := Config(true, false, true, true)

  /** An edit in an archived campaign is marked, with no timer, no save in flight and no banner. */
  lemma ArchivedEditStrandsTheMark(es: seq<Event>)
    requires es == [] + [Edit(None, Some("One"))]
    ensures !MarkCovered(After(ARCHIVED, Mounted([OneDraft("")], Medium), es))
  {
    AfterNext(ARCHIVED, Mounted([OneDraft("")], Medium), [], Edit(None, Some("One")));
    assert Edited(Mounted([OneDraft("")], Medium), None, Some("One")).drafts == [OneDraft("One")];
  }

  lemma AnswersFirst(s: State)
    requires s == Submitted("One").(drafts := [OneDraft("Two")], timer := Some(SaveOf("Two")))
    ensures
      var t := Step(OPEN_SCREEN, s, SaveSettles(1, SaveOk("Hello", "One")));
      && t.drafts == [OneDraft("One")] && t.selectedId == Some("d")
      && !t.dirty && t.timer.None? && !t.saving && t.failure.None?
  {
    assert SaveSettled(s, 1, SaveOk("Hello", "One")).drafts == [OneDraft("One")];
  }

  /** An edit, its autosave, a second edit, and the answer to the first: the second edit is gone from
      the screen, and nothing says that anything is unsaved. */
  lemma LateAnswerDropsANewerEdit(es: seq<Event>)
    requires es == [Edit(None, Some("One")), AutosaveFires]
                   + [Edit(None, Some("Two"))] + [SaveSettles(1, SaveOk("Hello", "One"))]
    ensures
      var s := After(OPEN_SCREEN, Mounted([OneDraft("")], Medium), es);
      && s.drafts == [OneDraft("One")]
      && !s.dirty && s.timer.None? && !s.saving && s.failure.None?
  {
    var s0 := Mounted([OneDraft("")], Medium);
    var first, e := [Edit(None, Some("One")), AutosaveFires], Edit(None, Some("Two"));
    TypedThenSubmitted("One");
    AfterNext(OPEN_SCREEN, s0, first, e);
    AfterNext(OPEN_SCREEN, s0, first + [e], SaveSettles(1, SaveOk("Hello", "One")));
    Types(Submitted("One"), "One", "Two");
    AnswersFirst(Submitted("One").(drafts := [OneDraft("Two")], timer := Some(SaveOf("Two"))));
  }
}
