/** Merging look-ahead drafts into the contact list (src/components/EmailDraftsStage.tsx): the upsert and
    its confluence. Completed results may arrive in any order, and more than once: only which results
    arrived matters. */
module LookaheadMerge {
  import opened Collections

  datatype Status = Drafted | Approved | Sending | Sent | Skipped | NotCreated
  datatype Kind = Initial | FollowUp | Reply
  datatype Source = Ai | AiLookahead | Manual

  datatype StageDraft = StageDraft(
    id: string, number: int, subject: string, body: string, status: Status, kind: Kind,
    source: Option<Source>, quotaCommitted: Option<bool>,
    sentAt: Option<string>, handoffAt: Option<string>, personaId: Option<string>,
    staleReasons: seq<string>)

  /** `details` stands for the fields of a contact that the stage never changes. */
  datatype Contact = Contact(id: string, details: string, drafts: seq<StageDraft>)

  /** A generated draft; an absent id, text or number is falsy and written as "" or 0. */
  datatype Result = Result(
    ok: bool, skipped: bool, draftId: string, subject: string, body: string, number: int,
    kind: Option<Kind>, source: Option<Source>, quotaCommitted: Option<bool>, personaId: Option<string>)

  predicate Complete(r: Result) {
    r.draftId != "" && r.subject != "" && r.body != "" && r.number != 0 && r.kind.Some?
  }

  function IdOf(d: StageDraft): string { d.id }
  function ByNumber(d: StageDraft): real { d.number as real }

  function NextDraft(r: Result): StageDraft
    requires Complete(r)
  {
    StageDraft(r.draftId, r.number, r.subject, r.body, Drafted, r.kind.value,
               Some(if r.source.Some? then r.source.value else AiLookahead),
               Some(r.quotaCommitted == Some(true)), None, None, r.personaId, [])
  }

  /** `{ ...draft, ...nextDraft }`: only what the new draft does not mention survives. */
  function Overlay(d: StageDraft, next: StageDraft): StageDraft {
    next.(staleReasons := d.staleReasons)
  }

  function MergeDrafts(drafts: seq<StageDraft>, r: Result): seq<StageDraft> {
    if !Complete(r) then drafts
    else
      var next := NextDraft(r);
      if FindBy(drafts, IdOf, next.id).Some?
      then MapSeq((d: StageDraft) => if d.id == next.id then Overlay(d, next) else d, drafts)
      else StableSort(drafts + [next], ByNumber)
  }

  function MergeLookaheadDraft(contact: Contact, r: Result): Contact {
    contact.(drafts := MergeDrafts(contact.drafts, r))
  }

  function Deliver(contacts: seq<Contact>, id: string, r: Result): seq<Contact> {
    MapSeq((c: Contact) => if c.id == id then MergeLookaheadDraft(c, r) else c, contacts)
  }

  // ----- one merge -----

  ghost predicate Tidy(drafts: seq<StageDraft>) {
    DistinctBy(drafts, IdOf) && StrictlyAscending(drafts, ByNumber)
  }

  /** The server keeps a known draft's sequence number and gives a new draft an unused one. */
  ghost predicate Fits(drafts: seq<StageDraft>, r: Result) {
    Complete(r) ==> forall d :: d in drafts ==> (d.number == r.number <==> d.id == r.draftId)
  }

  /** What `id` holds is decided by the members of a list with distinct ids. */
  lemma FindIsMember(drafts: seq<StageDraft>, d: StageDraft)
    requires DistinctBy(drafts, IdOf) && d in drafts
    ensures FindBy(drafts, IdOf, d.id) == Some(d)
  {
    FindByFacts(drafts, IdOf, d.id);
    OnePerTag(drafts, IdOf, d, FindBy(drafts, IdOf, d.id).value);
  }

  /** The draft a result becomes, given what its id held before. */
  function Placed(known: Option<StageDraft>, r: Result): StageDraft
    requires Complete(r)
  {
    if known.Some? then Overlay(known.value, NextDraft(r)) else NextDraft(r)
  }

  lemma MergeReplaces(drafts: seq<StageDraft>, r: Result)
    requires Tidy(drafts) && Fits(drafts, r) && Complete(r) && FindBy(drafts, IdOf, r.draftId).Some?
    ensures Tidy(MergeDrafts(drafts, r))
  {
    var m := MergeDrafts(drafts, r);
    forall i, j | 0 <= i < j < |m| ensures IdOf(m[i]) != IdOf(m[j]) && ByNumber(m[i]) < ByNumber(m[j]) {
      assert drafts[i] in drafts && drafts[j] in drafts;
      assert IdOf(drafts[i]) != IdOf(drafts[j]) && ByNumber(drafts[i]) < ByNumber(drafts[j]);
    }
  }

  lemma MergeAppends(drafts: seq<StageDraft>, r: Result)
    requires Tidy(drafts) && Fits(drafts, r) && Complete(r) && FindBy(drafts, IdOf, r.draftId).None?
    ensures Tidy(MergeDrafts(drafts, r))
  {
    var all := drafts + [NextDraft(r)];
    FindByFacts(drafts, IdOf, r.draftId);
    forall i, j | 0 <= i < j < |all| ensures IdOf(all[i]) != IdOf(all[j]) && ByNumber(all[i]) != ByNumber(all[j]) {
      if j < |drafts| {
        assert IdOf(drafts[i]) != IdOf(drafts[j]) && ByNumber(drafts[i]) < ByNumber(drafts[j]);
      } else {
        assert drafts[i] in drafts;
      }
    }
    SortDistinct(all, ByNumber, IdOf);
    SortStrict(all, ByNumber);
  }

  /** A merge keeps ids unique and the list strictly sorted. */
  lemma MergeKeepsTidy(drafts: seq<StageDraft>, r: Result)
    requires Tidy(drafts) && Fits(drafts, r)
    ensures Tidy(MergeDrafts(drafts, r))
  {
    if Complete(r) {
      if FindBy(drafts, IdOf, r.draftId).Some? { MergeReplaces(drafts, r); } else { MergeAppends(drafts, r); }
    }
  }

  lemma PlacedMembers(drafts: seq<StageDraft>, r: Result, x: StageDraft)
    requires Tidy(drafts) && Complete(r)
    ensures x in MergeDrafts(drafts, r)
            <==> (x in drafts && x.id != r.draftId) || x == Placed(FindBy(drafts, IdOf, r.draftId), r)
  {
    var known, m := FindBy(drafts, IdOf, r.draftId), MergeDrafts(drafts, r);
    FindByFacts(drafts, IdOf, r.draftId);
    if known.Some? {
      var k :| 0 <= k < |drafts| && drafts[k] == known.value;
      assert m[k] == Placed(known, r);
      if x in m {
        var i :| 0 <= i < |m| && m[i] == x;
        if drafts[i].id == r.draftId { OnePerTag(drafts, IdOf, drafts[i], known.value); }
      }
      if x in drafts && x.id != r.draftId {
        var i :| 0 <= i < |drafts| && drafts[i] == x;
        assert m[i] == x;
      }
    } else {
      SortFacts(drafts + [NextDraft(r)], ByNumber);
      assert x in m <==> x in multiset(m);
      assert x in drafts + [NextDraft(r)] <==> x in multiset(drafts + [NextDraft(r)]);
    }
  }

  /** `x` says what the result says, field by field: a fresh draft that is not sent and not handed off, charged only if
      the result says so, by the look-ahead unless the result names its source; of an old draft with its id it
      keeps the stale reasons, and nothing more. */
  ghost predicate Stands(x: StageDraft, r: Result, drafts: seq<StageDraft>) {
    && x.id == r.draftId && x.number == r.number && x.subject == r.subject && x.body == r.body
    && r.kind == Some(x.kind) && x.personaId == r.personaId
    && x.source == Some(if r.source.Some? then r.source.value else AiLookahead)
    && x.quotaCommitted == Some(r.quotaCommitted.Some? && r.quotaCommitted.value)
    && x.status == Drafted && x.sentAt == None && x.handoffAt == None
    && (forall d :: d in drafts && d.id == r.draftId ==> x.staleReasons == d.staleReasons)
    && ((forall d :: d in drafts ==> d.id != r.draftId) ==> x.staleReasons == [])
  }

  lemma StandsIsPlaced(drafts: seq<StageDraft>, r: Result, x: StageDraft)
    requires DistinctBy(drafts, IdOf) && Complete(r)
    ensures Stands(x, r, drafts) <==> x == Placed(FindBy(drafts, IdOf, r.draftId), r)
  {
    var known := FindBy(drafts, IdOf, r.draftId);
    FindByFacts(drafts, IdOf, r.draftId);
    if known.Some? {
      forall d | d in drafts && d.id == r.draftId ensures d == known.value {
        OnePerTag(drafts, IdOf, d, known.value);
      }
    }
    if Stands(x, r, drafts) {
      assert x == StageDraft(r.draftId, r.number, r.subject, r.body, Drafted, r.kind.value, x.source, x.quotaCommitted,
                             None, None, r.personaId, x.staleReasons);
    }
  }

  /** A complete result replaces what its id held, or joins the list, and nothing else changes; one that lacks its id,
      a text, its number or its kind changes nothing. */
  lemma MergeMembers(drafts: seq<StageDraft>, r: Result, x: StageDraft)
    requires Tidy(drafts)
    ensures
      if r.draftId == "" || r.subject == "" || r.body == "" || r.number == 0 || r.kind.None?
      then MergeDrafts(drafts, r) == drafts
      else x in MergeDrafts(drafts, r) <==> (x in drafts && x.id != r.draftId) || Stands(x, r, drafts)
  {
    if Complete(r) {
      PlacedMembers(drafts, r, x);
      StandsIsPlaced(drafts, r, x);
    }
  }

  /** A finished look-ahead always stores a draft: a draft that is SENT stays so exactly when the result
      is for another id. */
  lemma LateResultReopensItsDraft(drafts: seq<StageDraft>, r: Result, d: StageDraft)
    requires Tidy(drafts) && Complete(r) && d in drafts && d.status == Sent
    ensures d in MergeDrafts(drafts, r) <==> d.id != r.draftId
    ensures d.id == r.draftId ==>
              exists x :: x in MergeDrafts(drafts, r) && x.id == d.id && x.status == Drafted && x.sentAt == None
  {
    FindIsMember(drafts, d);
    PlacedMembers(drafts, r, d);
    PlacedMembers(drafts, r, Placed(FindBy(drafts, IdOf, r.draftId), r));
  }

  // ----- any number of merges -----

  function MergeAll(drafts: seq<StageDraft>, rs: seq<Result>): seq<StageDraft> {
    if rs == [] then drafts else MergeDrafts(MergeAll(drafts, rs[..|rs| - 1]), rs[|rs| - 1])
  }

  /** Every result fits the list, and different complete results are about different drafts with different numbers. */
  ghost predicate Consistent(drafts: seq<StageDraft>, rs: seq<Result>) {
    && (forall r :: r in rs ==> Fits(drafts, r))
    && (forall a, b :: a in rs && b in rs && Complete(a) && Complete(b) && a != b ==>
          a.draftId != b.draftId && a.number != b.number)
  }

  ghost predicate Delivered(rs: seq<Result>, id: string) {
    exists r :: r in rs && Complete(r) && r.draftId == id
  }

  /** The members after all merges: what no result mentions, and each result placed over what its id
      held at the start. Neither order nor repetition appears in this description. */
  ghost predicate FinalMember(drafts: seq<StageDraft>, rs: seq<Result>, x: StageDraft) {
    || (x in drafts && !Delivered(rs, x.id))
    || (exists r :: r in rs && Complete(r) && x == Placed(FindBy(drafts, IdOf, r.draftId), r))
  }

  lemma ConsistentPrefix(drafts: seq<StageDraft>, rs: seq<Result>)
    requires rs != [] && Consistent(drafts, rs)
    ensures Consistent(drafts, rs[..|rs| - 1]) && rs[|rs| - 1] in rs
    ensures forall r :: r in rs <==> r in rs[..|rs| - 1] || r == rs[|rs| - 1]
  {
    assert rs == rs[..|rs| - 1] + [rs[|rs| - 1]];
  }

  /** After the others, the last result still fits. */
  lemma LastFits(drafts: seq<StageDraft>, pre: seq<Result>, r: Result)
    requires Tidy(drafts) && Consistent(drafts, pre + [r]) && Complete(r)
    requires forall x :: x in MergeAll(drafts, pre) <==> FinalMember(drafts, pre, x)
    ensures Fits(MergeAll(drafts, pre), r)
  {
    assert r in pre + [r] && forall q :: q in pre ==> q in pre + [r];
    forall d | d in MergeAll(drafts, pre) ensures d.number == r.number <==> d.id == r.draftId {
      assert FinalMember(drafts, pre, d);
    }
  }

  /** What the last result becomes does not depend on what was merged before it. */
  lemma LastPlaced(drafts: seq<StageDraft>, pre: seq<Result>, r: Result)
    requires Tidy(drafts) && Consistent(drafts, pre + [r]) && Tidy(MergeAll(drafts, pre)) && Complete(r)
    requires forall x :: x in MergeAll(drafts, pre) <==> FinalMember(drafts, pre, x)
    ensures Placed(FindBy(MergeAll(drafts, pre), IdOf, r.draftId), r) == Placed(FindBy(drafts, IdOf, r.draftId), r)
  {
    var mid := MergeAll(drafts, pre);
    assert r in pre + [r] && forall q :: q in pre ==> q in pre + [r];
    FindByFacts(mid, IdOf, r.draftId);
    FindByFacts(drafts, IdOf, r.draftId);
    if r in pre {
      var p := Placed(FindBy(drafts, IdOf, r.draftId), r);
      assert FinalMember(drafts, pre, p);
      FindIsMember(mid, p);
    } else {
      assert !Delivered(pre, r.draftId);
      var was, now := FindBy(drafts, IdOf, r.draftId), FindBy(mid, IdOf, r.draftId);
      assert was.Some? ==> FinalMember(drafts, pre, was.value);
      assert now.Some? ==> FinalMember(drafts, pre, now.value);
      if now.Some? && was.Some? { FindIsMember(drafts, now.value); }
    }
  }

  lemma EarlierMembersStay(drafts: seq<StageDraft>, pre: seq<Result>, r: Result, x: StageDraft)
    requires FinalMember(drafts, pre, x) && x.id != r.draftId
    ensures FinalMember(drafts, pre + [r], x)
  {
    if x in drafts && !Delivered(pre, x.id) {
      assert !Delivered(pre + [r], x.id);
    } else {
      var q :| q in pre && Complete(q) && x == Placed(FindBy(drafts, IdOf, q.draftId), q);
      assert q in pre + [r];
    }
  }

  lemma MembersAreEarlier(drafts: seq<StageDraft>, pre: seq<Result>, r: Result, x: StageDraft)
    requires Consistent(drafts, pre + [r]) && Complete(r)
    requires FinalMember(drafts, pre + [r], x) && x != Placed(FindBy(drafts, IdOf, r.draftId), r)
    ensures FinalMember(drafts, pre, x) && x.id != r.draftId
  {
    var rs := pre + [r];
    assert r in rs && forall q :: q in pre ==> q in rs;
    if x in drafts && !Delivered(rs, x.id) {
      assert x.id != r.draftId && !Delivered(pre, x.id);
    } else {
      var q :| q in rs && Complete(q) && x == Placed(FindBy(drafts, IdOf, q.draftId), q);
      assert q in pre && x.id == q.draftId;
    }
  }

  /** An incomplete result leaves no trace. */
  lemma IncompleteAddsNothing(drafts: seq<StageDraft>, pre: seq<Result>, r: Result, x: StageDraft)
    requires !Complete(r)
    ensures FinalMember(drafts, pre + [r], x) <==> FinalMember(drafts, pre, x)
  {
    assert forall q :: q in pre + [r] <==> q in pre || q == r;
    assert Delivered(pre + [r], x.id) <==> Delivered(pre, x.id);
  }

  lemma LastMember(drafts: seq<StageDraft>, pre: seq<Result>, r: Result, x: StageDraft)
    requires Consistent(drafts, pre + [r]) && Complete(r)
    ensures FinalMember(drafts, pre + [r], x)
            <==> (FinalMember(drafts, pre, x) && x.id != r.draftId) || x == Placed(FindBy(drafts, IdOf, r.draftId), r)
  {
    assert r in pre + [r];
    assert x == Placed(FindBy(drafts, IdOf, r.draftId), r) ==> FinalMember(drafts, pre + [r], x);
    if FinalMember(drafts, pre, x) && x.id != r.draftId { EarlierMembersStay(drafts, pre, r, x); }
    if FinalMember(drafts, pre + [r], x) && x != Placed(FindBy(drafts, IdOf, r.draftId), r) {
      MembersAreEarlier(drafts, pre, r, x);
    }
  }

  lemma {:induction false} AllPlaced(drafts: seq<StageDraft>, rs: seq<Result>)
    requires Tidy(drafts) && Consistent(drafts, rs)
    ensures Tidy(MergeAll(drafts, rs))
    ensures forall x :: x in MergeAll(drafts, rs) <==> FinalMember(drafts, rs, x)
  {
    if rs != [] {
      var pre, r := rs[..|rs| - 1], rs[|rs| - 1];
      var mid := MergeAll(drafts, pre);
      assert rs == pre + [r];
      ConsistentPrefix(drafts, rs);
      AllPlaced(drafts, pre);
      if Complete(r) {
        LastFits(drafts, pre, r);
        MergeKeepsTidy(mid, r);
        LastPlaced(drafts, pre, r);
      }
      forall x ensures x in MergeAll(drafts, rs) <==> FinalMember(drafts, rs, x) {
        if Complete(r) {
          PlacedMembers(mid, r, x);
          LastMember(drafts, pre, r, x);
        } else {
          IncompleteAddsNothing(drafts, pre, r, x);
        }
      }
    }
  }

  /** After any results, in any order and with any repetition: the drafts that no complete result mentions, and for each
      complete result the draft that says what it says. */
  lemma MergeAllMembers(drafts: seq<StageDraft>, rs: seq<Result>, x: StageDraft)
    requires Tidy(drafts) && Consistent(drafts, rs)
    ensures Tidy(MergeAll(drafts, rs))
    ensures x in MergeAll(drafts, rs)
            <==> || (x in drafts && !Delivered(rs, x.id))
                 || exists r :: r in rs && Complete(r) && Stands(x, r, drafts)
  {
    AllPlaced(drafts, rs);
    forall r | r in rs && Complete(r)
      ensures Stands(x, r, drafts) <==> x == Placed(FindBy(drafts, IdOf, r.draftId), r)
    {
      StandsIsPlaced(drafts, r, x);
    }
    assert x in MergeAll(drafts, rs) <==> FinalMember(drafts, rs, x);
  }

  /** The drafts of one contact after a set of results does not depend on the order in which they
      arrived, nor on how often each did. */
  lemma MergeIsConfluent(drafts: seq<StageDraft>, rs: seq<Result>, qs: seq<Result>)
    requires Tidy(drafts) && Consistent(drafts, rs)
    requires forall r :: r in rs <==> r in qs
    ensures MergeAll(drafts, rs) == MergeAll(drafts, qs)
  {
    AllPlaced(drafts, rs);
    AllPlaced(drafts, qs);
    forall x ensures x in MergeAll(drafts, rs) <==> x in MergeAll(drafts, qs) {
      assert Delivered(rs, x.id) <==> Delivered(qs, x.id);
      assert FinalMember(drafts, rs, x) <==> FinalMember(drafts, qs, x);
    }
    StrictlyAscendingUnique(MergeAll(drafts, rs), MergeAll(drafts, qs), ByNumber);
  }

  // ----- the whole stage -----

  datatype Delivery = Delivery(contactId: string, result: Result)

  function DeliverAll(contacts: seq<Contact>, ds: seq<Delivery>): seq<Contact> {
    if ds == [] then contacts
    else Deliver(DeliverAll(contacts, ds[..|ds| - 1]), ds[|ds| - 1].contactId, ds[|ds| - 1].result)
  }

  /** The results delivered to one contact, in order of arrival. */
  function ResultsFor(ds: seq<Delivery>, id: string): seq<Result> {
    if ds == [] then []
    else ResultsFor(ds[..|ds| - 1], id) + if ds[|ds| - 1].contactId == id then [ds[|ds| - 1].result] else []
  }

  lemma {:induction false} ResultsForMembers(ds: seq<Delivery>, id: string)
    ensures forall r :: r in ResultsFor(ds, id) <==> Delivery(id, r) in ds
  {
    if ds != [] {
      ResultsForMembers(ds[..|ds| - 1], id);
      assert ds == ds[..|ds| - 1] + [ds[|ds| - 1]];
    }
  }

  lemma MergeAllNext(drafts: seq<StageDraft>, rs: seq<Result>, r: Result)
    ensures MergeAll(drafts, rs + [r]) == MergeDrafts(MergeAll(drafts, rs), r)
  {
    assert (rs + [r])[..|rs|] == rs;
  }

  /** Each contact receives its own results and nothing else about it changes. */
  lemma {:induction false} DeliverAllPointwise(contacts: seq<Contact>, ds: seq<Delivery>)
    ensures |DeliverAll(contacts, ds)| == |contacts|
    ensures forall i :: 0 <= i < |contacts| ==>
              DeliverAll(contacts, ds)[i]
              == contacts[i].(drafts := MergeAll(contacts[i].drafts, ResultsFor(ds, contacts[i].id)))
  {
    if ds != [] {
      var d := ds[|ds| - 1];
      DeliverAllPointwise(contacts, ds[..|ds| - 1]);
      forall i | 0 <= i < |contacts|
        ensures DeliverAll(contacts, ds)[i]
                == contacts[i].(drafts := MergeAll(contacts[i].drafts, ResultsFor(ds, contacts[i].id)))
      {
        var mid := DeliverAll(contacts, ds[..|ds| - 1]);
        var before := ResultsFor(ds[..|ds| - 1], contacts[i].id);
        assert DeliverAll(contacts, ds)[i]
            == if mid[i].id == d.contactId then MergeLookaheadDraft(mid[i], d.result) else mid[i];
        if d.contactId == contacts[i].id {
          MergeAllNext(contacts[i].drafts, before, d.result);
        } else {
          assert ResultsFor(ds, contacts[i].id) == before;
        }
      }
    }
  }

  ghost predicate StageConsistent(contacts: seq<Contact>, ds: seq<Delivery>) {
    forall i :: 0 <= i < |contacts| ==>
      Tidy(contacts[i].drafts) && Consistent(contacts[i].drafts, ResultsFor(ds, contacts[i].id))
  }

  /** Applying the results of a look-ahead in any order, and any of them any number of times, yields the
      same contacts. */
  lemma LookaheadIsConfluent(contacts: seq<Contact>, ds: seq<Delivery>, es: seq<Delivery>)
    requires StageConsistent(contacts, ds)
    requires forall d :: d in ds <==> d in es
    ensures DeliverAll(contacts, ds) == DeliverAll(contacts, es)
  {
    DeliverAllPointwise(contacts, ds);
    DeliverAllPointwise(contacts, es);
    forall i | 0 <= i < |contacts| ensures DeliverAll(contacts, ds)[i] == DeliverAll(contacts, es)[i] {
      ResultsForMembers(ds, contacts[i].id);
      ResultsForMembers(es, contacts[i].id);
      MergeIsConfluent(contacts[i].drafts, ResultsFor(ds, contacts[i].id), ResultsFor(es, contacts[i].id));
    }
  }

  /** After any deliveries every contact's drafts have unique ids and are strictly sorted. */
  lemma DeliveriesKeepTidy(contacts: seq<Contact>, ds: seq<Delivery>, i: nat)
    requires StageConsistent(contacts, ds) && i < |contacts|
    ensures |DeliverAll(contacts, ds)| == |contacts| && Tidy(DeliverAll(contacts, ds)[i].drafts)
  {
    DeliverAllPointwise(contacts, ds);
    AllPlaced(contacts[i].drafts, ResultsFor(ds, contacts[i].id));
  }
}
