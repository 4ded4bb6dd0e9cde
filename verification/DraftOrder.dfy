/** The draft list of the sequence screen: ids unique, strictly sorted by sequence number, and the
    selection always on a listed draft. */
module DraftOrder {
  import opened Collections
  import opened DraftProtocol
  import opened DraftBookkeeping
  import opened DraftSentSafety

  ghost predicate SelectionListed(s: State) {
    if s.drafts == [] then s.selectedId.None?
    else s.selectedId.Some? && FindBy(s.drafts, IdOf, s.selectedId.value).Some?
  }

  ghost predicate Ordered(s: State) {
    DistinctIds(s.drafts) && StrictlyAscending(s.drafts, ByNumber) && SelectionListed(s)
  }

  /** The server keeps a draft's sequence number and gives a new draft an unused one. */
  ghost predicate WellNumbered(drafts: seq<Draft>, r: GenerationReply) {
    CarriesDraft(r) ==>
      var known := FindBy(drafts, IdOf, r.draftId);
      if known.Some? then known.value.number == r.number
      else forall d :: d in drafts ==> d.number != r.number
  }

  lemma ReshapedOrder(was: seq<Draft>, now: seq<Draft>, sent: Option<string>)
    requires StrictlyAscending(was, ByNumber) && Reshaped(was, now, sent)
    ensures StrictlyAscending(now, ByNumber)
  {
    forall i, j | 0 <= i < j < |now| ensures ByNumber(now[i]) < ByNumber(now[j]) {
      assert ByNumber(was[i]) < ByNumber(was[j]);
    }
  }

  lemma UpsertAppends(drafts: seq<Draft>, d: Draft)
    requires StrictlyAscending(drafts, ByNumber) && FindBy(drafts, IdOf, d.id).None?
    requires forall x :: x in drafts ==> x.number != d.number
    ensures StrictlyAscending(Upsert(drafts, d), ByNumber)
  {
    var all := drafts + [d];
    forall i, j | 0 <= i < j < |all| ensures ByNumber(all[i]) != ByNumber(all[j]) {
      if j < |drafts| { assert ByNumber(drafts[i]) < ByNumber(drafts[j]); }
      else { assert drafts[i] in drafts; }
    }
    SortStrict(all, ByNumber);
  }

  lemma UpsertReplaces(drafts: seq<Draft>, d: Draft)
    requires DistinctIds(drafts) && StrictlyAscending(drafts, ByNumber)
    requires FindBy(drafts, IdOf, d.id).Some? && FindBy(drafts, IdOf, d.id).value.number == d.number
    ensures StrictlyAscending(Upsert(drafts, d), ByNumber)
  {
    FindByFacts(drafts, IdOf, d.id);
    var r := Upsert(drafts, d);
    forall i | 0 <= i < |drafts| ensures r[i].number == drafts[i].number {
      if drafts[i].id == d.id { OnePerTag(drafts, IdOf, drafts[i], FindBy(drafts, IdOf, d.id).value); }
    }
    forall i, j | 0 <= i < j < |r| ensures ByNumber(r[i]) < ByNumber(r[j]) {
      assert ByNumber(drafts[i]) < ByNumber(drafts[j]);
    }
  }

  /** An upserted draft is listed, and so is every draft that was. */
  lemma UpsertLists(drafts: seq<Draft>, d: Draft)
    ensures d in Upsert(drafts, d)
  {
    FindByFacts(drafts, IdOf, d.id);
    if FindBy(drafts, IdOf, d.id).Some? {
      var x :| x in drafts && x.id == d.id;
      var i :| 0 <= i < |drafts| && drafts[i] == x;
      assert Upsert(drafts, d)[i] == d;
    } else {
      SortFacts(drafts + [d], ByNumber);
      assert (drafts + [d])[|drafts|] == d;
      assert d in multiset(drafts + [d]);
    }
  }

  lemma GenerationKeepsOrder(s: State, r: GenerationReply)
    requires Ordered(s) && WellNumbered(s.drafts, r)
    ensures Ordered(GenerationSettled(s, r))
  {
    if s.generating.Some? && CarriesDraft(r) {
      var d := DraftFrom(r, s.generating.value);
      UpsertKeepsIds(s.drafts, d);
      if FindBy(s.drafts, IdOf, d.id).Some? { UpsertReplaces(s.drafts, d); } else { UpsertAppends(s.drafts, d); }
      UpsertLists(s.drafts, d);
      FindByFacts(Upsert(s.drafts, d), IdOf, d.id);
    }
  }

  lemma LatestListed(drafts: seq<Draft>)
    requires drafts != []
    ensures FindBy(drafts, IdOf, drafts[|drafts| - 1].id).Some?
  {
    assert drafts[|drafts| - 1] in drafts;
    FindByFacts(drafts, IdOf, drafts[|drafts| - 1].id);
  }

  lemma ReshapedListed(s: State, t: State, sent: Option<string>)
    requires Ordered(s) && Reshaped(s.drafts, t.drafts, sent) && t.selectedId == s.selectedId
    ensures Ordered(t)
  {
    ReshapedKeepsIds(s.drafts, t.drafts, sent);
    ReshapedOrder(s.drafts, t.drafts, sent);
    if s.selectedId.Some? { ReshapedFind(s.drafts, t.drafts, sent, s.selectedId.value); }
  }

  lemma SelectionKeepsOrder(c: Config, s: State, e: Event)
    requires Ordered(s) && (e.ReturnToLatest? || e.SelectDraft?)
    ensures Ordered(Handle(c, s, e))
  {
    if s.drafts != [] { LatestListed(s.drafts); }
  }

  lemma OthersKeepOrder(c: Config, s: State, e: Event)
    requires Inv(c, s) && Ordered(s) && !Reselects(e)
    ensures Ordered(Handle(c, s, e))
  {
    HandleGood(c, s, e);
    ReshapedListed(s, Handle(c, s, e), SentBy(s, e));
  }

  lemma HandleKeepsOrder(c: Config, s: State, e: Event)
    requires Inv(c, s) && Ordered(s)
    requires e.GenerationSettles? ==> WellNumbered(s.drafts, e.generation)
    ensures Ordered(Handle(c, s, e))
  {
    match e
    case GenerationSettles(r) => GenerationKeepsOrder(s, r);
    case ReturnToLatest => SelectionKeepsOrder(c, s, e);
    case SelectDraft(_) => SelectionKeepsOrder(c, s, e);
    case _ => OthersKeepOrder(c, s, e);
  }

  /** In every run in which the server numbers drafts consistently, the list stays strictly sorted by
      sequence number, with unique ids and the selection on a listed draft. */
  lemma {:induction false} RunKeepsOrder(c: Config, drafts: seq<Draft>, length: Length, es: seq<Event>)
    requires DistinctIds(drafts) && StrictlyAscending(drafts, ByNumber)
    requires forall i :: 0 <= i < |es| && es[i].GenerationSettles? ==>
               WellNumbered(Before(c, Mounted(drafts, length), es, i).drafts, es[i].generation)
    ensures Ordered(After(c, Mounted(drafts, length), es))
  {
    var s0 := Mounted(drafts, length);
    if es == [] {
      if drafts != [] { LatestListed(drafts); }
    } else {
      var n := |es| - 1;
      forall i | 0 <= i < n && es[..n][i].GenerationSettles?
        ensures WellNumbered(Before(c, s0, es[..n], i).drafts, es[..n][i].generation)
      {
        assert es[..n][..i] == es[..i];
      }
      RunKeepsOrder(c, drafts, length, es[..n]);
      RunKeepsInv(c, drafts, length, es[..n]);
      assert es[..n] == es[..|es| - 1];
      HandleKeepsOrder(c, After(c, s0, es[..n]), es[n]);
    }
  }

  lemma LatestIsHighest(drafts: seq<Draft>)
    requires drafts != [] && StrictlyAscending(drafts, ByNumber)
    ensures forall x :: x in drafts ==> x == drafts[|drafts| - 1] || x.number < drafts[|drafts| - 1].number
  {
    forall x | x in drafts ensures x == drafts[|drafts| - 1] || x.number < drafts[|drafts| - 1].number {
      var i :| 0 <= i < |drafts| && drafts[i] == x;
      if i < |drafts| - 1 { assert ByNumber(drafts[i]) < ByNumber(drafts[|drafts| - 1]); }
    }
  }

  /** The next email can be generated only once the highest-numbered draft is SENT with a send time. */
  lemma NextEmailOnlyAfterLatestSent(c: Config, s: State)
    requires Ordered(s) && s.generating.None? && Step(c, s, StartGeneration(NextEmail)).generating.Some?
    ensures exists d ::
      && d in s.drafts && d.status == Sent && Present(d.sentAt)
      && (forall x :: x in s.drafts ==> x == d || x.number < d.number)
  {
    assert CanAdd(c, s);
    LatestIsHighest(s.drafts);
    assert Latest(s.drafts).value in s.drafts;
  }
}
