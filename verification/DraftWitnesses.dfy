/** Runs of the sequence screen and its server that leave a text behind, for each kind of event of which
    `DraftUnsaved` says that this can happen. Two drafts are loaded, "a" and "b", and "b" is on screen. */
module DraftWitnesses {
  import opened Collections
  import opened DraftProtocol
  import DraftSafety
  import opened DraftUnsaved
  import opened DraftUnsavedRuns

  const OPEN_SCREEN := DraftSafety.OPEN_SCREEN

  const ARCHIVED := DraftSafety.ARCHIVED

  function DraftA(body: string): Draft {
    Draft("a", 1, "S", body, Drafted, None, None, None)
  }

  function DraftB(body: string): Draft {
    Draft("b", 2, "S", body, Drafted, None, None, None)
  }

  function SaveText(id: string, body: string): SaveRequest {
    SaveRequest(Copy(id, "S", body), Medium, false)
  }

  const LOADED := Mounted([DraftA("x"), DraftB("o")], Medium)

  const HELD: map<string, Copy> := map["a" := Copy("a", "S", "x"), "b" := Copy("b", "S", "o")]

  /** The server still holds what was loaded, and has stored nothing for the calls in flight. */
  function Fresh(s: State): World {
    World(s, Server(HELD, map[]))
  }

  ghost predicate Reaches(c: Config, ms: seq<Move>, w: World) {
    AfterMoves(c, Loaded([DraftA("x"), DraftB("o")], Medium), ms) == w
  }

  /** The text of this draft is not what the server holds; nothing is under way that would change it, and
      nothing on the page says so. */
  ghost predicate LeftBehind(c: Config, ms: seq<Move>, id: string) {
    !Tended(AfterMoves(c, Loaded([DraftA("x"), DraftB("o")], Medium), ms), id)
  }

  lemma LoadedIsFresh(c: Config)
    ensures Reaches(c, [], Fresh(LOADED))
  {
    assert TextOf(LOADED.drafts, "a") == Some(Copy("a", "S", "x"));
    assert TextOf(LOADED.drafts, "b") == Some(Copy("b", "S", "o"));
    var ids := set d | d in LOADED.drafts :: d.id;
    assert DraftA("x") in LOADED.drafts && DraftB("o") in LOADED.drafts;
    assert ids == {"a", "b"};
    assert AsLoaded(LOADED.drafts) == HELD;
  }

  lemma Then(c: Config, ms: seq<Move>, w: World, m: Move, v: World)
    requires Reaches(c, ms, w) && Next(c, w, m) == v
    ensures Reaches(c, ms + [m], v)
  {
    assert (ms + [m])[..|ms|] == ms;
  }

  /** A positive answer needs something stored; any other event happens on the screen alone. */
  predicate Alone(e: Event) {
    match e
    case SaveSettles(_, reply) => !reply.SaveOk?
    case MarkSaveSettles(reply) => !reply.SaveOk?
    case GenerationSettles(_) => false
    case _ => true
  }

  lemma ThenAlone(c: Config, ms: seq<Move>, s: State, e: Event, t: State)
    requires Reaches(c, ms, Fresh(s)) && Alone(e) && Step(c, s, e) == t
    ensures Reaches(c, ms + [Screen(e)], Fresh(t))
  {
    AloneIsFresh(c, s, e);
    Then(c, ms, Fresh(s), Screen(e), Fresh(t));
  }

  lemma AloneIsFresh(c: Config, s: State, e: Event)
    requires Alone(e)
    ensures Next(c, Fresh(s), Screen(e)) == Fresh(Step(c, s, e))
  {
    var none: map<Call, Copy> := map[];
    if Answered(e).Some? { assert none - {Answered(e).value} == none; }
  }

  /** The effects leave the handler's result as it is. */
  lemma NoEffect(c: Config, s: State, e: Event, h: State)
    requires Handle(c, s, e) == h && e != AutosaveFires && h.timer == s.timer
    requires SelectedKey(h) == SelectedKey(s) && WatchedBy(h) == WatchedBy(s)
    ensures Step(c, s, e) == h
  {}

  // ----- silence about "b" -----

  /** "b" lists "n", the server holds another text, no call is about "b", and neither banner nor mark is. */
  ghost predicate Silent(w: World) {
    var s := w.screen;
    && |s.drafts| == 2 && s.drafts[0].id == "a" && CopyOf(s.drafts[1]) == Copy("b", "S", "n")
    && "b" in w.server.held && w.server.held["b"].id == "b" && w.server.held["b"] != Copy("b", "S", "n")
    && !s.dirty && Shown(s).None?
    && (forall n :: n in s.saves ==> s.saves[n].copy.id != "b")
    && (s.send.Some? ==> s.send.value.Marking?)
    && (forall k :: k in w.server.stored ==> w.server.stored[k].id != "b")
  }

  lemma NothingTendsB(w: World)
    requires Silent(w)
    ensures !Tended(w, "b")
  {
    var s, text := w.screen, Copy("b", "S", "n");
    assert FindBy(s.drafts, IdOf, "b") == Some(s.drafts[1]) by { assert s.drafts[1..] == [s.drafts[1]]; }
    assert TextOf(s.drafts, "b") == Some(text);
    forall k: Call ensures Submitted(s, k) != Some(text) {}
  }

  /** The move after which nothing speaks of the text of "b" any more. */
  ghost predicate Silences(c: Config, w: World, m: Move, v: World) {
    Next(c, w, m) == v && Silent(v)
  }

  lemma Concludes(c: Config, pre: seq<Move>, w: World, m: Move, v: World)
    requires Reaches(c, pre, w) && Silences(c, w, m, v)
    ensures LeftBehind(c, pre + [m], "b")
  {
    Then(c, pre, w, m, v);
    NothingTendsB(v);
  }

  /** The same for an event on the screen alone. */
  ghost predicate SilencesAlone(c: Config, s: State, e: Event, t: State) {
    Alone(e) && Step(c, s, e) == t && Silent(Fresh(t))
  }

  lemma ConcludesAlone(c: Config, pre: seq<Move>, s: State, e: Event, t: State)
    requires Reaches(c, pre, Fresh(s)) && SilencesAlone(c, s, e, t)
    ensures LeftBehind(c, pre + [Screen(e)], "b")
  {
    ThenAlone(c, pre, s, e, t);
    NothingTendsB(Fresh(t));
  }

  // ----- an edit of "b", and its autosave -----

  const TYPED := LOADED.(drafts := [DraftA("x"), DraftB("n")], dirty := true, timer := Some(SaveText("b", "n")))

  const SUBMITTED := TYPED.(timer := None, saving := true, saveSeq := 1, saves := map[1 := SaveText("b", "n")])

  const TYPING: seq<Move> := [Screen(Edit(None, Some("n")))]

  const SUBMITTING: seq<Move> := TYPING + [Screen(AutosaveFires)]

  lemma Types()
    ensures Step(OPEN_SCREEN, LOADED, Edit(None, Some("n"))) == TYPED
  {
    var t := Edited(LOADED, None, Some("n"));
    assert t.drafts == [DraftA("x"), DraftB("n")];
  }

  lemma Submits()
    ensures Step(OPEN_SCREEN, TYPED, AutosaveFires) == SUBMITTED
  {}

  lemma ReachesTyped()
    ensures Reaches(OPEN_SCREEN, TYPING, Fresh(TYPED))
  {
    LoadedIsFresh(OPEN_SCREEN);
    Types();
    ThenAlone(OPEN_SCREEN, [], LOADED, Edit(None, Some("n")), TYPED);
    assert [] + TYPING == TYPING;
  }

  lemma ReachesSubmitted()
    ensures Reaches(OPEN_SCREEN, SUBMITTING, Fresh(SUBMITTED))
  {
    ReachesTyped();
    Submits();
    ThenAlone(OPEN_SCREEN, TYPING, TYPED, AutosaveFires, SUBMITTED);
  }

  // ----- "b" is left -----

  const LEFT := TYPED.(selectedId := Some("a"), dirty := false, timer := None)

  lemma Leaves()
    ensures SilencesAlone(OPEN_SCREEN, TYPED, SelectDraft("a"), LEFT)
  {}

  /** Another draft is opened before the autosave. */
  lemma OpeningAnotherLeavesText(ms: seq<Move>)
    requires ms == TYPING + [Screen(SelectDraft("a"))]
    ensures LeftBehind(OPEN_SCREEN, ms, "b")
  {
    ReachesTyped();
    Leaves();
    ConcludesAlone(OPEN_SCREEN, TYPING, TYPED, SelectDraft("a"), LEFT);
  }

  const SUBMITTED_LEFT := SUBMITTED.(selectedId := Some("a"), dirty := false)

  lemma LeavesSubmitted()
    ensures Step(OPEN_SCREEN, SUBMITTED, SelectDraft("a")) == SUBMITTED_LEFT
  {}

  const ONTO_A: seq<Move> := SUBMITTING + [Screen(SelectDraft("a"))]

  lemma ReachesOntoA()
    ensures Reaches(OPEN_SCREEN, ONTO_A, Fresh(SUBMITTED_LEFT))
  {
    ReachesSubmitted();
    LeavesSubmitted();
    ThenAlone(OPEN_SCREEN, SUBMITTING, SUBMITTED, SelectDraft("a"), SUBMITTED_LEFT);
  }

  // ----- a call throws -----

  const THROWN := SUBMITTED_LEFT.(saving := false, saves := map[])

  lemma Throws()
    ensures SilencesAlone(OPEN_SCREEN, SUBMITTED_LEFT, SaveSettles(1, SaveThrows), THROWN)
  {
    assert SUBMITTED_LEFT.saves - {1} == map[];
  }

  /** The call of the only save throws, after another draft was opened. */
  lemma ThrowLeavesText(ms: seq<Move>)
    requires ms == ONTO_A + [Screen(SaveSettles(1, SaveThrows))]
    ensures LeftBehind(OPEN_SCREEN, ms, "b")
  {
    ReachesOntoA();
    Throws();
    ConcludesAlone(OPEN_SCREEN, ONTO_A, SUBMITTED_LEFT, SaveSettles(1, SaveThrows), THROWN);
  }

  // ----- an email client is opened with the unsaved text -----

  const HANDED := TYPED.(
    clientOpenInFlight := true, handoff := Recording("b"), saving := true, saveSeq := 1,
    saves := map[1 := SaveText("b", "n").(afterHandoff := true)])

  lemma HandsOff()
    ensures Step(OPEN_SCREEN, TYPED, OpenClient(Prefilled)) == HANDED
  {
    assert Selected(TYPED) == Some(DraftB("n")) by { assert TYPED.drafts[1..] == [DraftB("n")]; }
    NoEffect(OPEN_SCREEN, TYPED, OpenClient(Prefilled), HANDED);
  }

  const HANDING: seq<Move> := TYPING + [Screen(OpenClient(Prefilled))]

  lemma ReachesHanded()
    ensures Reaches(OPEN_SCREEN, HANDING, Fresh(HANDED))
  {
    ReachesTyped();
    HandsOff();
    ThenAlone(OPEN_SCREEN, TYPING, TYPED, OpenClient(Prefilled), HANDED);
  }

  const HANDED_LEFT := HANDED.(selectedId := Some("a"), dirty := false, timer := None)

  lemma LeavesHanded()
    ensures Step(OPEN_SCREEN, HANDED, SelectDraft("a")) == HANDED_LEFT
  {}

  const HANDED_ONTO_A: seq<Move> := HANDING + [Screen(SelectDraft("a"))]

  lemma ReachesHandedLeft()
    ensures Reaches(OPEN_SCREEN, HANDED_ONTO_A, Fresh(HANDED_LEFT))
  {
    ReachesHanded();
    LeavesHanded();
    ThenAlone(OPEN_SCREEN, HANDING, HANDED, SelectDraft("a"), HANDED_LEFT);
  }

  const HANDOFF_THROWN := HANDED_LEFT.(saving := false, saves := map[])

  lemma HandoffThrows()
    ensures SilencesAlone(OPEN_SCREEN, HANDED_LEFT, SaveSettles(1, SaveThrows), HANDOFF_THROWN)
  {
    assert HANDED_LEFT.saves - {1} == map[];
  }

  /** The save of a hand-off throws after another draft was opened: the client holds a text of which nothing
      says that it is not saved. */
  lemma ThrownHandoffLeavesText(ms: seq<Move>)
    requires ms == HANDED_ONTO_A + [Screen(SaveSettles(1, SaveThrows))]
    ensures LeftBehind(OPEN_SCREEN, ms, "b")
  {
    ReachesHandedLeft();
    HandoffThrows();
    ConcludesAlone(OPEN_SCREEN, HANDED_ONTO_A, HANDED_LEFT, SaveSettles(1, SaveThrows), HANDOFF_THROWN);
  }

  const REFUSED := HANDED.(saving := false, saves := map[], failure := Some(Failure(Copy("b", "S", "n"), true)))

  lemma Refuses()
    ensures Step(OPEN_SCREEN, HANDED, SaveSettles(1, SaveRejected)) == REFUSED
  {
    assert HANDED.saves - {1} == map[];
  }

  const REFUSING: seq<Move> := HANDING + [Screen(SaveSettles(1, SaveRejected))]

  lemma ReachesRefused()
    ensures Reaches(OPEN_SCREEN, REFUSING, Fresh(REFUSED))
  {
    ReachesHanded();
    Refuses();
    ThenAlone(OPEN_SCREEN, HANDING, HANDED, SaveSettles(1, SaveRejected), REFUSED);
  }

  const BANNER_LEFT := REFUSED.(selectedId := Some("a"), dirty := false, timer := None, failure := None)

  lemma LeavesBanner()
    ensures SilencesAlone(OPEN_SCREEN, REFUSED, SelectDraft("a"), BANNER_LEFT)
  {}

  /** The save of a hand-off is refused and announced, and another draft is opened: the banner is gone. */
  lemma LeavingTheBannerLeavesText(ms: seq<Move>)
    requires ms == REFUSING + [Screen(SelectDraft("a"))]
    ensures LeftBehind(OPEN_SCREEN, ms, "b")
  {
    ReachesRefused();
    LeavesBanner();
    ConcludesAlone(OPEN_SCREEN, REFUSING, REFUSED, SelectDraft("a"), BANNER_LEFT);
  }

  // ----- a refusal comes late -----

  const HANDED_A := SUBMITTED_LEFT.(
    clientOpenInFlight := true, handoff := Recording("a"), saveSeq := 2,
    saves := map[1 := SaveText("b", "n"), 2 := SaveText("a", "x").(afterHandoff := true)])

  lemma HandsOffA()
    ensures Step(OPEN_SCREEN, SUBMITTED_LEFT, OpenClient(Prefilled)) == HANDED_A
  {
    assert Selected(SUBMITTED_LEFT) == Some(DraftA("x"));
    NoEffect(OPEN_SCREEN, SUBMITTED_LEFT, OpenClient(Prefilled), HANDED_A);
  }

  const REFUSED_LATE := HANDED_A.(saves := map[2 := SaveText("a", "x").(afterHandoff := true)])

  lemma RefusesLate()
    ensures SilencesAlone(OPEN_SCREEN, HANDED_A, SaveSettles(1, SaveRejected), REFUSED_LATE)
  {
    assert HANDED_A.saves - {1} == REFUSED_LATE.saves;
  }

  const BOTH: seq<Move> := ONTO_A + [Screen(OpenClient(Prefilled))]

  lemma ReachesBoth()
    ensures Reaches(OPEN_SCREEN, BOTH, Fresh(HANDED_A))
  {
    ReachesOntoA();
    HandsOffA();
    ThenAlone(OPEN_SCREEN, ONTO_A, SUBMITTED_LEFT, OpenClient(Prefilled), HANDED_A);
  }

  /** A refusal that arrives after a save of another draft has begun is not announced. */
  lemma StaleRefusalLeavesText(ms: seq<Move>)
    requires ms == BOTH + [Screen(SaveSettles(1, SaveRejected))]
    ensures LeftBehind(OPEN_SCREEN, ms, "b")
  {
    ReachesBoth();
    RefusesLate();
    ConcludesAlone(OPEN_SCREEN, BOTH, HANDED_A, SaveSettles(1, SaveRejected), REFUSED_LATE);
  }

  // ----- the server answers for another draft -----

  /** The server has stored this for a call, under the id of "a". */
  function Stored(s: State, k: Call, body: string): World {
    World(s, Server(HELD["a" := Copy("a", "S", body)], map[k := Copy("a", "S", body)]))
  }

  /** And the call has been answered. */
  function Answers(s: State, body: string): World {
    World(s, Server(HELD["a" := Copy("a", "S", body)], map[]))
  }

  lemma ThenStored(c: Config, ms: seq<Move>, s: State, k: Call, body: string)
    requires Reaches(c, ms, Fresh(s)) && Storable(Fresh(s), k, Copy("a", "S", body))
    ensures Reaches(c, ms + [Store(k, Copy("a", "S", body))], Stored(s, k, body))
  {
    Then(c, ms, Fresh(s), Store(k, Copy("a", "S", body)), Stored(s, k, body));
  }

  /** An answer that carries what was stored. */
  ghost predicate Lists(c: Config, s: State, k: Call, body: string, e: Event, t: State) {
    Answered(e) == Some(k) && Truthful(Stored(s, k, body), e) && Step(c, s, e) == t
  }

  lemma ListsNext(c: Config, s: State, k: Call, body: string, e: Event, t: State)
    requires Lists(c, s, k, body, e, t)
    ensures Next(c, Stored(s, k, body), Screen(e)) == Answers(t, body)
  {
    var one: map<Call, Copy> := map[k := Copy("a", "S", body)];
    assert one - {k} == map[];
  }

  lemma ConcludesListed(
      c: Config, pre: seq<Move>, s: State, k: Call, body: string, e: Event, t: State)
    requires Reaches(c, pre, Fresh(s)) && Storable(Fresh(s), k, Copy("a", "S", body))
    requires Lists(c, s, k, body, e, t) && Silent(Answers(t, body))
    ensures LeftBehind(c, pre + [Store(k, Copy("a", "S", body))] + [Screen(e)], "b")
  {
    ThenStored(c, pre, s, k, body);
    ListsNext(c, s, k, body, e, t);
    Concludes(c, pre + [Store(k, Copy("a", "S", body))], Stored(s, k, body), Screen(e), Answers(t, body));
  }

  const ON_A := LOADED.(selectedId := Some("a"))

  const SAVING_A := ON_A.(saving := true, saveSeq := 1, saves := map[1 := SaveText("a", "x")])

  const RETURNED := SAVING_A.(selectedId := Some("b"))

  const EDITING_B := TYPED.(saving := true, saveSeq := 1, saves := map[1 := SaveText("a", "x")])

  const ANSWERED_A := TYPED.(saveSeq := 1, dirty := false, timer := None)

  lemma OpensA()
    ensures Step(OPEN_SCREEN, LOADED, SelectDraft("a")) == ON_A
  {}

  lemma SavesA()
    ensures Step(OPEN_SCREEN, ON_A, PressSave) == SAVING_A
  {
    assert Selected(ON_A) == Some(DraftA("x"));
  }

  lemma Returns()
    ensures Step(OPEN_SCREEN, SAVING_A, SelectDraft("b")) == RETURNED
  {
    assert SAVING_A.drafts[1..] == [DraftB("o")];
  }

  lemma EditsAgain()
    ensures Edited(RETURNED, None, Some("n")) == EDITING_B.(timer := None)
  {
    assert Selected(RETURNED) == Some(DraftB("o")) by { assert RETURNED.drafts[1..] == [DraftB("o")]; }
    assert Edited(RETURNED, None, Some("n")).drafts == TYPED.drafts;
  }

  lemma TypesAgain()
    ensures Step(OPEN_SCREEN, RETURNED, Edit(None, Some("n"))) == EDITING_B
  {
    EditsAgain();
    assert TYPED.drafts[1..] == [DraftB("n")];
  }

  lemma AnswersA()
    ensures Lists(OPEN_SCREEN, EDITING_B, Save(1), "x", SaveSettles(1, SaveOk("S", "x")), ANSWERED_A)
  {
    assert EDITING_B.saves - {1} == map[];
    assert WriteBack(EDITING_B.drafts, "a", SaveOk("S", "x")) == EDITING_B.drafts;
  }

  lemma AnsweredIsSilent()
    ensures Silent(Answers(ANSWERED_A, "x")) && Storable(Fresh(EDITING_B), Save(1), Copy("a", "S", "x"))
  {}

  const SAVING: seq<Move> := [Screen(SelectDraft("a"))] + [Screen(PressSave)]

  const EDITING: seq<Move> := SAVING + [Screen(SelectDraft("b"))] + [Screen(Edit(None, Some("n")))]

  lemma ReachesSavingA()
    ensures Reaches(OPEN_SCREEN, SAVING, Fresh(SAVING_A))
  {
    LoadedIsFresh(OPEN_SCREEN);
    OpensA();
    ThenAlone(OPEN_SCREEN, [], LOADED, SelectDraft("a"), ON_A);
    assert [] + [Screen(SelectDraft("a"))] == [Screen(SelectDraft("a"))];
    SavesA();
    ThenAlone(OPEN_SCREEN, [Screen(SelectDraft("a"))], ON_A, PressSave, SAVING_A);
  }

  lemma ReachesEditingB()
    ensures Reaches(OPEN_SCREEN, EDITING, Fresh(EDITING_B))
  {
    ReachesSavingA();
    Returns();
    ThenAlone(OPEN_SCREEN, SAVING, SAVING_A, SelectDraft("b"), RETURNED);
    TypesAgain();
    ThenAlone(OPEN_SCREEN, SAVING + [Screen(SelectDraft("b"))], RETURNED, Edit(None, Some("n")), EDITING_B);
  }

  /** The newest save succeeds for another draft than the one that is being edited: edit mark and timer go. */
  lemma AnotherSuccessLeavesText(ms: seq<Move>)
    requires ms == EDITING + [Store(Save(1), Copy("a", "S", "x"))] + [Screen(SaveSettles(1, SaveOk("S", "x")))]
    ensures LeftBehind(OPEN_SCREEN, ms, "b")
  {
    ReachesEditingB();
    AnswersA();
    AnsweredIsSilent();
    ConcludesListed(OPEN_SCREEN, EDITING, EDITING_B, Save(1), "x", SaveSettles(1, SaveOk("S", "x")), ANSWERED_A);
  }

  // ----- answers for "a" that take the banner of "b" down -----

  /** What is under way for "a". */
  datatype Work = Work(send: Option<SendCall>, sendBusy: Option<SendKind>, generating: Option<Length>)

  function With(s: State, w: Work): State {
    s.(send := w.send, sendBusy := w.sendBusy, generating := w.generating)
  }

  /** Back at "b", whose save has been refused. */
  const BANNER_UP := SUBMITTED.(
    dirty := false, saving := false, saves := map[], failure := Some(Failure(Copy("b", "S", "n"), false)))

  lemma ReturnsToB(w: Work)
    ensures Step(OPEN_SCREEN, With(SUBMITTED_LEFT, w), SelectDraft("b")) == With(SUBMITTED.(dirty := false), w)
  {
    assert SUBMITTED_LEFT.drafts[1..] == [DraftB("n")];
  }

  lemma RefusesB(w: Work)
    ensures Step(OPEN_SCREEN, With(SUBMITTED.(dirty := false), w), SaveSettles(1, SaveRejected)) == With(BANNER_UP, w)
  {
    assert SUBMITTED.saves - {1} == map[];
  }

  ghost predicate Begins(start: Event, w: Work) {
    Alone(start) && Step(OPEN_SCREEN, SUBMITTED_LEFT, start) == With(SUBMITTED_LEFT, w)
  }

  function Returning(start: Event): seq<Move> {
    ONTO_A + [Screen(start)] + [Screen(SelectDraft("b"))]
  }

  function Meanwhile(start: Event): seq<Move> {
    Returning(start) + [Screen(SaveSettles(1, SaveRejected))]
  }

  lemma ReachesReturned(start: Event, w: Work)
    requires Begins(start, w)
    ensures Reaches(OPEN_SCREEN, Returning(start), Fresh(With(SUBMITTED.(dirty := false), w)))
  {
    ReachesOntoA();
    ThenAlone(OPEN_SCREEN, ONTO_A, SUBMITTED_LEFT, start, With(SUBMITTED_LEFT, w));
    ReturnsToB(w);
    ThenAlone(OPEN_SCREEN, ONTO_A + [Screen(start)], With(SUBMITTED_LEFT, w), SelectDraft("b"),
              With(SUBMITTED.(dirty := false), w));
  }

  lemma ReachesBanner(start: Event, w: Work)
    requires Begins(start, w)
    ensures Reaches(OPEN_SCREEN, Meanwhile(start), Fresh(With(BANNER_UP, w)))
  {
    ReachesReturned(start, w);
    RefusesB(w);
    ThenAlone(OPEN_SCREEN, Returning(start), With(SUBMITTED.(dirty := false), w), SaveSettles(1, SaveRejected),
              With(BANNER_UP, w));
  }

  const MARKING_A := Work(Some(MarkSaving(Copy("a", "S", "x"), Medium)), Some(Mark), None)

  const SENDING_A := Work(Some(Connecting(Copy("a", "S", "x"))), Some(Connected), None)

  const WRITING_A := Work(None, None, Some(Medium))

  /** The last part of such a run. */
  ghost predicate TakesBannerDown(w: Work, k: Call, body: string, e: Event, t: State) {
    && Storable(Fresh(With(BANNER_UP, w)), k, Copy("a", "S", body))
    && Lists(OPEN_SCREEN, With(BANNER_UP, w), k, body, e, t) && Silent(Answers(t, body))
  }

  lemma MeanwhileLeavesText(start: Event, w: Work, k: Call, body: string, e: Event, t: State)
    requires Begins(start, w) && TakesBannerDown(w, k, body, e, t)
    ensures LeftBehind(OPEN_SCREEN, Meanwhile(start) + [Store(k, Copy("a", "S", body))] + [Screen(e)], "b")
  {
    ReachesBanner(start, w);
    ConcludesListed(OPEN_SCREEN, Meanwhile(start), With(BANNER_UP, w), k, body, e, t);
  }

  lemma BeginsMark(start: Event)
    requires start == PressMark
    ensures Begins(start, MARKING_A)
  {
    assert Selected(SUBMITTED_LEFT) == Some(DraftA("x"));
    NoEffect(OPEN_SCREEN, SUBMITTED_LEFT, start, With(SUBMITTED_LEFT, MARKING_A));
  }

  const MARK_SAVED := With(BANNER_UP, MARKING_A.(send := Some(Marking(Copy("a", "S", "x"))))).(failure := None)

  lemma SavesMark(e: Event)
    requires e == MarkSaveSettles(SaveOk("S", "x"))
    ensures TakesBannerDown(MARKING_A, MarkSave, "x", e, MARK_SAVED)
  {
    assert WriteBack(BANNER_UP.drafts, "a", SaveOk("S", "x")) == BANNER_UP.drafts;
    NoEffect(OPEN_SCREEN, With(BANNER_UP, MARKING_A), e, MARK_SAVED);
  }

  /** The save of a mark succeeds for another draft than the one whose banner is up. */
  lemma MarkOfAnotherLeavesText(start: Event, e: Event)
    requires start == PressMark && e == MarkSaveSettles(SaveOk("S", "x"))
    ensures LeftBehind(OPEN_SCREEN, Meanwhile(start) + [Store(MarkSave, Copy("a", "S", "x"))] + [Screen(e)], "b")
  {
    BeginsMark(start);
    SavesMark(e);
    MeanwhileLeavesText(start, MARKING_A, MarkSave, "x", e, MARK_SAVED);
  }

  lemma BeginsSending(start: Event)
    requires start == PressConnected
    ensures Begins(start, SENDING_A)
  {
    assert Selected(SUBMITTED_LEFT) == Some(DraftA("x"));
    NoEffect(OPEN_SCREEN, SUBMITTED_LEFT, start, With(SUBMITTED_LEFT, SENDING_A));
  }

  const A_SENT := BANNER_UP.(
    drafts := [DraftA("x").(status := Sent, sentAt := Some("t")), DraftB("n")], failure := None)

  lemma SentIsSilent()
    ensures Silent(Answers(A_SENT, "x"))
  {}

  lemma AcceptsA(e: Event)
    requires e == ConnectedSettles(ConnectedOk("t"))
    ensures TakesBannerDown(SENDING_A, Send, "x", e, A_SENT)
  {
    SentIsSilent();
    assert UpdateById(BANNER_UP.drafts, "a", WithSent("t")) == A_SENT.drafts;
    assert BANNER_UP.drafts[1..] == A_SENT.drafts[1..] == [DraftB("n")];
    NoEffect(OPEN_SCREEN, With(BANNER_UP, SENDING_A), e, A_SENT);
  }

  /** The mailbox accepts another draft than the one whose banner is up. */
  lemma SendOfAnotherLeavesText(start: Event, e: Event)
    requires start == PressConnected && e == ConnectedSettles(ConnectedOk("t"))
    ensures LeftBehind(OPEN_SCREEN, Meanwhile(start) + [Store(Send, Copy("a", "S", "x"))] + [Screen(e)], "b")
  {
    BeginsSending(start);
    AcceptsA(e);
    MeanwhileLeavesText(start, SENDING_A, Send, "x", e, A_SENT);
  }

  lemma BeginsWriting(start: Event)
    requires start == StartGeneration(Regenerate)
    ensures Begins(start, WRITING_A)
  {
    assert Selected(SUBMITTED_LEFT) == Some(DraftA("x"));
    NoEffect(OPEN_SCREEN, SUBMITTED_LEFT, start, With(SUBMITTED_LEFT, WRITING_A));
  }

  const REWRITTEN := Generated(false, true, "a", "S", "y", 1, true, None, None)

  const A_REWRITTEN := BANNER_UP.(
    drafts := [DraftA("y").(length := Some(Medium)), DraftB("n")], selectedId := Some("a"), failure := None)

  lemma Inserts()
    ensures GenerationSettled(With(BANNER_UP, WRITING_A), REWRITTEN) == A_REWRITTEN
  {
    assert DraftFrom(REWRITTEN, Medium) == A_REWRITTEN.drafts[0];
    assert Upsert(BANNER_UP.drafts, DraftFrom(REWRITTEN, Medium)) == A_REWRITTEN.drafts;
  }

  lemma OpensRewritten(e: Event)
    requires e == GenerationSettles(REWRITTEN)
    ensures Step(OPEN_SCREEN, With(BANNER_UP, WRITING_A), e) == A_REWRITTEN
  {
    Inserts();
  }

  lemma RewrittenIsSilent()
    ensures Silent(Answers(A_REWRITTEN, "y")) && CarriesDraft(REWRITTEN)
  {}

  lemma Rewrites(e: Event)
    requires e == GenerationSettles(REWRITTEN)
    ensures TakesBannerDown(WRITING_A, Write, "y", e, A_REWRITTEN)
  {
    OpensRewritten(e);
    RewrittenIsSilent();
  }

  /** Another draft than the one whose banner is up has been generated anew. */
  lemma GenerationLeavesText(start: Event, e: Event)
    requires start == StartGeneration(Regenerate) && e == GenerationSettles(REWRITTEN)
    ensures LeftBehind(OPEN_SCREEN, Meanwhile(start) + [Store(Write, Copy("a", "S", "y"))] + [Screen(e)], "b")
  {
    BeginsWriting(start);
    Rewrites(e);
    MeanwhileLeavesText(start, WRITING_A, Write, "y", e, A_REWRITTEN);
  }

  // ----- a mark hides the banner of "b" -----

  const MARKING := With(SUBMITTED_LEFT, MARKING_A)

  const MARK_DONE := With(SUBMITTED_LEFT, MARKING_A.(send := Some(Marking(Copy("a", "S", "x")))))

  const MARK_REFUSED := MARK_DONE.(
    saving := false, saves := map[], failure := Some(Failure(Copy("b", "S", "n"), false)))

  const MARKED := MARK_REFUSED.(
    drafts := [DraftA("x").(status := Sent, sentAt := Some("t")), DraftB("n")], sendBusy := None, send := None)

  const MARKING_RUN: seq<Move> := ONTO_A + [Screen(PressMark)]

  const MARK_SAVING: seq<Move> :=
    MARKING_RUN + [Store(MarkSave, Copy("a", "S", "x"))] + [Screen(MarkSaveSettles(SaveOk("S", "x")))]

  const MARK_RUN: seq<Move> := MARK_SAVING + [Screen(SaveSettles(1, SaveRejected))]

  lemma ReachesMarking()
    ensures Reaches(OPEN_SCREEN, MARKING_RUN, Fresh(MARKING))
  {
    ReachesOntoA();
    BeginsMark(PressMark);
    ThenAlone(OPEN_SCREEN, ONTO_A, SUBMITTED_LEFT, PressMark, MARKING);
  }

  lemma MarkSaved()
    ensures Lists(OPEN_SCREEN, MARKING, MarkSave, "x", MarkSaveSettles(SaveOk("S", "x")), MARK_DONE)
  {
    assert WriteBack(MARKING.drafts, "a", SaveOk("S", "x")) == MARKING.drafts;
    NoEffect(OPEN_SCREEN, MARKING, MarkSaveSettles(SaveOk("S", "x")), MARK_DONE);
  }

  lemma ReachesMarkSaved()
    ensures Reaches(OPEN_SCREEN, MARK_SAVING, Fresh(MARK_DONE))
  {
    ReachesMarking();
    MarkSaved();
    MarkSavedLists(MarkSaveSettles(SaveOk("S", "x")));
  }

  lemma MarkSavedLists(e: Event)
    requires Reaches(OPEN_SCREEN, MARKING_RUN, Fresh(MARKING)) && Lists(OPEN_SCREEN, MARKING, MarkSave, "x", e, MARK_DONE)
    ensures Reaches(OPEN_SCREEN, MARKING_RUN + [Store(MarkSave, Copy("a", "S", "x"))] + [Screen(e)], Fresh(MARK_DONE))
  {
    ThenStored(OPEN_SCREEN, MARKING_RUN, MARKING, MarkSave, "x");
    ListsNext(OPEN_SCREEN, MARKING, MarkSave, "x", e, MARK_DONE);
    Then(OPEN_SCREEN, MARKING_RUN + [Store(MarkSave, Copy("a", "S", "x"))], Stored(MARKING, MarkSave, "x"), Screen(e),
         Answers(MARK_DONE, "x"));
    assert HELD["a" := Copy("a", "S", "x")] == HELD;
  }

  lemma MarkRefuses()
    ensures Step(OPEN_SCREEN, MARK_DONE, SaveSettles(1, SaveRejected)) == MARK_REFUSED
  {
    assert MARK_DONE.saves - {1} == map[];
  }

  lemma ReachesMarkRefused()
    ensures Reaches(OPEN_SCREEN, MARK_RUN, Fresh(MARK_REFUSED))
  {
    ReachesMarkSaved();
    MarkRefuses();
    ThenAlone(OPEN_SCREEN, MARK_SAVING, MARK_DONE, SaveSettles(1, SaveRejected), MARK_REFUSED);
  }

  lemma MarksA()
    ensures MarkSettled(MARK_REFUSED, MarkOk("t")) == MARKED
  {
    assert UpdateById(MARK_REFUSED.drafts, "a", WithSent("t")) == MARKED.drafts;
  }

  lemma TurnsSent()
    ensures SilencesAlone(OPEN_SCREEN, MARK_REFUSED, MarkSettles(MarkOk("t")), MARKED)
  {
    MarksA();
    NoEffect(OPEN_SCREEN, MARK_REFUSED, MarkSettles(MarkOk("t")), MARKED);
  }

  /** A mark of "a" succeeds while its page announces the refused save of "b": the page of a SENT draft shows
      no banner. */
  lemma MarkHidesTheBanner(ms: seq<Move>)
    requires ms == MARK_RUN + [Screen(MarkSettles(MarkOk("t")))]
    ensures LeftBehind(OPEN_SCREEN, ms, "b")
  {
    ReachesMarkRefused();
    TurnsSent();
    ConcludesAlone(OPEN_SCREEN, MARK_RUN, MARK_REFUSED, MarkSettles(MarkOk("t")), MARKED);
  }

  // ----- answers arrive in another order than the server stored -----

  const MORE := SUBMITTED.(drafts := [DraftA("x"), DraftB("m")], timer := Some(SaveText("b", "m")))

  const TWICE := MORE.(timer := None, saveSeq := 2, saves := map[1 := SaveText("b", "n"), 2 := SaveText("b", "m")])

  const NEWER_ANSWERED := TWICE.(saving := false, dirty := false, saves := map[1 := SaveText("b", "n")])

  const OLDER_ANSWERED := NEWER_ANSWERED.(drafts := [DraftA("x"), DraftB("n")], saves := map[])

  const FIRST := Copy("b", "S", "n")

  const SECOND := Copy("b", "S", "m")

  const STORED_FIRST := Server(HELD["b" := FIRST], map[Save(1) := FIRST])

  const STORED_BOTH := Server(HELD["b" := SECOND], map[Save(1) := FIRST, Save(2) := SECOND])

  const FIRST_LEFT := Server(HELD["b" := SECOND], map[Save(1) := FIRST])

  const NONE_LEFT := Server(HELD["b" := SECOND], map[])

  lemma TypesMore()
    ensures Step(OPEN_SCREEN, SUBMITTED, Edit(None, Some("m"))) == MORE
  {
    assert Selected(SUBMITTED) == Some(DraftB("n")) by { assert SUBMITTED.drafts[1..] == [DraftB("n")]; }
    assert Edited(SUBMITTED, None, Some("m")).drafts == MORE.drafts;
  }

  lemma SubmitsMore()
    ensures Step(OPEN_SCREEN, MORE, AutosaveFires) == TWICE
  {}

  const TYPING_TWICE: seq<Move> := SUBMITTING + [Screen(Edit(None, Some("m")))] + [Screen(AutosaveFires)]

  lemma ReachesTwice()
    ensures Reaches(OPEN_SCREEN, TYPING_TWICE, Fresh(TWICE))
  {
    ReachesSubmitted();
    TypesMore();
    ThenAlone(OPEN_SCREEN, SUBMITTING, SUBMITTED, Edit(None, Some("m")), MORE);
    SubmitsMore();
    ThenAlone(OPEN_SCREEN, SUBMITTING + [Screen(Edit(None, Some("m")))], MORE, AutosaveFires, TWICE);
  }

  const STORING: seq<Move> := TYPING_TWICE + [Store(Save(1), FIRST)] + [Store(Save(2), SECOND)]

  lemma ReachesStored()
    ensures Reaches(OPEN_SCREEN, STORING, World(TWICE, STORED_BOTH))
  {
    ReachesTwice();
    Then(OPEN_SCREEN, TYPING_TWICE, Fresh(TWICE), Store(Save(1), FIRST), World(TWICE, STORED_FIRST));
    assert STORED_FIRST.held["b" := SECOND] == STORED_BOTH.held;
    Then(OPEN_SCREEN, TYPING_TWICE + [Store(Save(1), FIRST)], World(TWICE, STORED_FIRST), Store(Save(2), SECOND),
         World(TWICE, STORED_BOTH));
  }

  lemma NewerAnswers()
    ensures Next(OPEN_SCREEN, World(TWICE, STORED_BOTH), Screen(SaveSettles(2, SaveOk("S", "m"))))
            == World(NEWER_ANSWERED, FIRST_LEFT)
  {
    assert TWICE.saves - {2} == NEWER_ANSWERED.saves;
    assert WriteBack(TWICE.drafts, "b", SaveOk("S", "m")) == TWICE.drafts;
    assert STORED_BOTH.stored - {Save(2)} == FIRST_LEFT.stored;
  }

  lemma OlderAnswers()
    ensures Next(OPEN_SCREEN, World(NEWER_ANSWERED, FIRST_LEFT), Screen(SaveSettles(1, SaveOk("S", "n"))))
            == World(OLDER_ANSWERED, NONE_LEFT)
  {
    assert NEWER_ANSWERED.saves - {1} == map[];
    assert WriteBack(NEWER_ANSWERED.drafts, "b", SaveOk("S", "n")) == OLDER_ANSWERED.drafts;
    assert FIRST_LEFT.stored - {Save(1)} == map[];
  }

  lemma OlderIsSilent()
    ensures Silent(World(OLDER_ANSWERED, NONE_LEFT))
  {}

  const NEWER_RUN: seq<Move> := STORING + [Screen(SaveSettles(2, SaveOk("S", "m")))]

  lemma ReachesNewerAnswered()
    ensures Reaches(OPEN_SCREEN, NEWER_RUN, World(NEWER_ANSWERED, FIRST_LEFT))
  {
    ReachesStored();
    NewerAnswers();
    Then(OPEN_SCREEN, STORING, World(TWICE, STORED_BOTH), Screen(SaveSettles(2, SaveOk("S", "m"))),
         World(NEWER_ANSWERED, FIRST_LEFT));
  }

  /** Two saves of one draft are stored in order and answered in the other: the older text is listed, and
      nothing says that the server holds the newer one. */
  lemma OlderAnswerHidesNewerText(ms: seq<Move>)
    requires ms == NEWER_RUN + [Screen(SaveSettles(1, SaveOk("S", "n")))]
    ensures LeftBehind(OPEN_SCREEN, ms, "b")
  {
    ReachesNewerAnswered();
    OlderAnswers();
    OlderIsSilent();
    Concludes(OPEN_SCREEN, NEWER_RUN, World(NEWER_ANSWERED, FIRST_LEFT), Screen(SaveSettles(1, SaveOk("S", "n"))),
              World(OLDER_ANSWERED, NONE_LEFT));
  }

  // ----- where no autosave runs -----

  const ARCHIVED_TYPED := TYPED.(timer := None)

  lemma TypesArchived()
    ensures Step(ARCHIVED, LOADED, Edit(None, Some("n"))) == ARCHIVED_TYPED
  {
    assert Edited(LOADED, None, Some("n")).drafts == ARCHIVED_TYPED.drafts;
  }

  lemma LeavesArchived()
    ensures SilencesAlone(ARCHIVED, ARCHIVED_TYPED, SelectDraft("a"), LEFT)
  {}

  /** An edit in an archived campaign is never saved by itself, and leaving the draft takes its mark away. */
  lemma ArchivedEditLeavesText(ms: seq<Move>)
    requires ms == TYPING + [Screen(SelectDraft("a"))]
    ensures LeftBehind(ARCHIVED, ms, "b")
  {
    LoadedIsFresh(ARCHIVED);
    TypesArchived();
    ThenAlone(ARCHIVED, [], LOADED, Edit(None, Some("n")), ARCHIVED_TYPED);
    assert [] + TYPING == TYPING;
    LeavesArchived();
    ConcludesAlone(ARCHIVED, TYPING, ARCHIVED_TYPED, SelectDraft("a"), LEFT);
  }
}
