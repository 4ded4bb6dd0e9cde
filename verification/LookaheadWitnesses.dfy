/** Two runs of the drafts stage that show what it does not guarantee. */
module LookaheadWitnesses {
  import opened Collections
  import opened LookaheadMerge
  import opened LookaheadRuns

  ghost predicate Reaches(contacts: seq<Contact>, es: seq<Event>, s: State) {
    After(Mounted(contacts, "r"), es) == s
  }

  lemma Then(contacts: seq<Contact>, es: seq<Event>, s: State, e: Event, t: State)
    requires Reaches(contacts, es, s) && Step(s, e) == t
    ensures Reaches(contacts, es + [e], t)
  {
    assert (es + [e])[..|es|] == es;
  }

  // ----- a late answer for a draft that was sent -----

  const GENERATED := Result(true, false, "d", "S", "B", 1, Some(Initial), None, None, None)

  const UNSENT := StageDraft("d", 1, "S", "B", Drafted, Initial, Some(AiLookahead), Some(false), None, None, None, [])

  /** A contact whose draft is opened for review; the stage looks ahead to the contacts behind it. */
  function Reviewed(id: string, draft: string): Contact {
    Contact(id, "", [StageDraft(draft, 1, "S", "B", Drafted, Initial, Some(Ai), Some(true), None, None, None, [])])
  }

  const LISTED: seq<Contact> := [Reviewed("r", "x"), Contact("c", "", [])]

  const GENERATED_LIST: seq<Contact> := [Reviewed("r", "x"), Contact("c", "", [UNSENT])]

  const SENT_LIST: seq<Contact> :=
    [Reviewed("r", "x"), Contact("c", "", [UNSENT.(status := Sent, sentAt := Some("noon"))])]

  const REQUEST := Request(1, "c", [])

  const ASKED := Mounted(LISTED, "r").(
    triggered := {"r:x"}, runId := 1, preparing := {"c"}, requests := multiset{REQUEST})

  const RELOADED := ASKED.(contacts := GENERATED_LIST)

  const OPENED := RELOADED.(selectedId := "c", commits := multiset{Commit("c", "d")})

  const SENT := OPENED.(contacts := SENT_LIST, selectedId := "", queueComplete := true)

  lemma Asks()
    ensures Step(Mounted(LISTED, "r"), Review("r", "x", ["c"], true)) == ASKED
  {
    assert ReviewKey("r", "x") == "r:x";
    assert {} + {"r:x"} == {"r:x"} && {} + {"c"} == {"c"};
    assert ["c"][1..] == [];
    assert Mounted(LISTED, "r").requests + multiset{REQUEST} == multiset{REQUEST};
  }

  lemma Opens()
    ensures Step(RELOADED, SelectContact("c")) == OPENED
  {
    assert FindBy(GENERATED_LIST, ContactId, "c") == Some(GENERATED_LIST[1]) by {
      assert GENERATED_LIST[1..] == [GENERATED_LIST[1]];
    }
    assert RELOADED.commits + multiset{Commit("c", "d")} == OPENED.commits;
  }

  lemma Sends()
    ensures Step(OPENED, SendCompletes("c", "d", "noon", None)) == SENT
  {
    var updated := UpdateDraft(OPENED.contacts, "c", "d", WithSent("noon"));
    assert ChangeDraft([UNSENT], "d", WithSent("noon")) == [UNSENT.(status := Sent, sentAt := Some("noon"))];
    assert updated == SENT.contacts;
  }

  const OPENING: seq<Event> := [Review("r", "x", ["c"], true)] + [Refresh(GENERATED_LIST)] + [SelectContact("c")]

  const SENDING: seq<Event> := OPENING + [SendCompletes("c", "d", "noon", None)]

  lemma ReachesOpened()
    ensures Reaches(LISTED, OPENING, OPENED)
  {
    Asks();
    assert [] + [Review("r", "x", ["c"], true)] == [Review("r", "x", ["c"], true)];
    Then(LISTED, [], Mounted(LISTED, "r"), Review("r", "x", ["c"], true), ASKED);
    Then(LISTED, [Review("r", "x", ["c"], true)], ASKED, Refresh(GENERATED_LIST), RELOADED);
    Opens();
    Then(LISTED, [Review("r", "x", ["c"], true)] + [Refresh(GENERATED_LIST)], RELOADED, SelectContact("c"), OPENED);
  }

  lemma ReachesSent()
    ensures Reaches(LISTED, SENDING, SENT)
  {
    ReachesOpened();
    Sends();
    Then(LISTED, OPENING, OPENED, SendCompletes("c", "d", "noon", None), SENT);
  }

  /** A draft is generated ahead, appears with a reload of the page, is opened and sent, all before the answer of its
      generation arrives: then the stage shows it unsent. */
  lemma LateAnswerReopensASentDraft(es: seq<Event>)
    requires es == SENDING + [GenerationSettles(REQUEST, Answered(GENERATED))]
    ensures
      && After(Mounted(LISTED, "r"), SENDING).contacts == SENT_LIST
      && After(Mounted(LISTED, "r"), es).contacts == GENERATED_LIST
  {
    ReachesSent();
    assert es[..|es| - 1] == SENDING;
    var t := Step(SENT, GenerationSettles(REQUEST, Answered(GENERATED)));
    assert t.contacts == Deliver(SENT.contacts, "c", GENERATED);
    assert MergeDrafts(SENT.contacts[1].drafts, GENERATED) == [UNSENT];
  }

  // ----- two runs generate for one contact -----

  const BOTH_LISTED: seq<Contact> := [Reviewed("r", "x"), Reviewed("q", "y"), Contact("c", "", [])]

  const ASKED_ONCE := ASKED.(contacts := BOTH_LISTED)

  const ASKED_TWICE := ASKED_ONCE.(
    triggered := {"r:x", "q:y"}, runId := 2, requests := multiset{REQUEST, Request(2, "c", [])})

  lemma AsksOnce()
    ensures Step(Mounted(BOTH_LISTED, "r"), Review("r", "x", ["c"], true)) == ASKED_ONCE
  {
    assert ReviewKey("r", "x") == "r:x";
    assert {} + {"r:x"} == {"r:x"} && {} + {"c"} == {"c"};
    assert ["c"][1..] == [];
    assert Mounted(BOTH_LISTED, "r").requests + multiset{REQUEST} == multiset{REQUEST};
  }

  lemma AsksAgainFor()
    ensures Step(ASKED_ONCE, Review("q", "y", ["c"], true)) == ASKED_TWICE
  {
    assert ReviewKey("q", "y") == "q:y" && "q:y"[0] != "r:x"[0];
    assert {"r:x"} + {"q:y"} == {"r:x", "q:y"};
    assert ["c"][1..] == [];
    assert multiset{REQUEST} + multiset{Request(2, "c", [])} == multiset{REQUEST, Request(2, "c", [])};
  }

  const ASKING_TWICE: seq<Event> := [Review("r", "x", ["c"], true)] + [Review("q", "y", ["c"], true)]

  /** The drafts of two contacts are opened one after the other, and both look ahead to the third: the answer
      of the first run takes the mark away while the second is still generating. */
  lemma FirstAnswerTakesTheMark(es: seq<Event>)
    requires es == ASKING_TWICE + [GenerationSettles(REQUEST, Failed)]
    ensures
      var s := After(Mounted(BOTH_LISTED, "r"), es);
      "c" !in s.preparing && InFlight(s.requests, "c")
  {
    AsksOnce();
    assert [] + [Review("r", "x", ["c"], true)] == [Review("r", "x", ["c"], true)];
    Then(BOTH_LISTED, [], Mounted(BOTH_LISTED, "r"), Review("r", "x", ["c"], true), ASKED_ONCE);
    AsksAgainFor();
    Then(BOTH_LISTED, [Review("r", "x", ["c"], true)], ASKED_ONCE, Review("q", "y", ["c"], true), ASKED_TWICE);
    assert es[..|es| - 1] == ASKING_TWICE;
    var t := Step(ASKED_TWICE, GenerationSettles(REQUEST, Failed));
    assert Request(2, "c", []) in t.requests;
  }
}
