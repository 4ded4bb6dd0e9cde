/** What each event of the drafts stage does, field by field: which contacts and drafts it rewrites, which run and
    which charge it starts, and where it moves the selection. Whatever is not named stays as it is. */
module LookaheadEffects {
  import opened Collections
  import opened LookaheadMerge
  import opened LookaheadRuns

  /** The drafts of one contact take in a result; everything else stays. */
  ghost predicate Merged(was: seq<Contact>, now: seq<Contact>, contactId: string, r: Result) {
    && |now| == |was|
    && forall i :: 0 <= i < |was| ==>
         now[i] == if was[i].id == contactId then was[i].(drafts := MergeDrafts(was[i].drafts, r)) else was[i]
  }

  /** One draft of one contact is rewritten in its place; everything else stays. */
  ghost predicate Rewritten(
      was: seq<Contact>, now: seq<Contact>, contactId: string, draftId: string, becomes: StageDraft -> StageDraft)
  {
    && |now| == |was|
    && forall i :: 0 <= i < |was| ==>
         && now[i] == was[i].(drafts := now[i].drafts) && |now[i].drafts| == |was[i].drafts|
         && forall j :: 0 <= j < |was[i].drafts| ==>
              now[i].drafts[j] == if was[i].id == contactId && was[i].drafts[j].id == draftId
                                  then becomes(was[i].drafts[j]) else was[i].drafts[j]
  }

  lemma UpdateRewrites(contacts: seq<Contact>, id: string, draft: string, change: StageDraft -> StageDraft)
    ensures Rewritten(contacts, UpdateDraft(contacts, id, draft, change), id, draft, change)
  {
    var now := UpdateDraft(contacts, id, draft, change);
    forall i | 0 <= i < |contacts| && contacts[i].id == id
      ensures now[i].drafts == ChangeDraft(contacts[i].drafts, draft, change)
    {}
  }

  // ----- looking ahead -----

  /** Opening a draft starts one run for its review key, in an active stage that has not seen the key; the run asks
      for the first of the contacts picked. */
  lemma ReviewStarts(s: State, contact: string, draft: string, targets: seq<string>, active: bool)
    ensures
      var t, key := Step(s, Review(contact, draft, targets, active)), contact + ":" + draft;
      t == if !active || key in s.triggered then s
           else if targets == [] then s.(triggered := s.triggered + {key})
           else s.(triggered := s.triggered + {key}, runId := s.runId + 1, preparing := s.preparing + {targets[0]},
                   requests := s.requests + multiset{Request(s.runId + 1, targets[0], targets[1..])})
  {}

  /** The answer to a request in flight: a usable result is merged into its contact, the contact's mark goes, and
      unless it threw or a newer run has started, the run asks for its next contact. */
  lemma AnswerLands(s: State, q: Request, reply: GenerationReply)
    ensures
      var t := Step(s, GenerationSettles(q, reply));
      if q !in s.requests then t == s
      else
        var left, unmarked := s.requests - multiset{q}, s.preparing - {q.contactId};
        var goesOn := reply.Answered? && q.run == s.runId && q.rest != [];
        && t == s.(contacts := t.contacts,
                   preparing := if goesOn then unmarked + {q.rest[0]} else unmarked,
                   requests := if goesOn then left + multiset{Request(q.run, q.rest[0], q.rest[1..])} else left)
        && if reply.Answered? && reply.result.ok && !reply.result.skipped
           then Merged(s.contacts, t.contacts, q.contactId, reply.result)
           else t.contacts == s.contacts
  {}

  /** A draft generated on the open screen is merged into its contact as AI work that is charged already; then the
      stage looks ahead as if it had been opened. */
  lemma GeneratedIsMerged(s: State, contact: string, r: Result, targets: seq<string>, active: bool)
    ensures
      var t := Step(s, DraftGenerated(contact, r, targets, active));
      && Merged(s.contacts, t.contacts, contact,
                Result(true, r.skipped, r.draftId, r.subject, r.body, r.number, r.kind, Some(Ai), Some(true), None))
      && t == Step(s.(contacts := t.contacts), Review(contact, r.draftId, targets, active))
  {
    var result := Result(true, r.skipped, r.draftId, r.subject, r.body, r.number, r.kind, Some(Ai), Some(true), None);
    assert Merged(s.contacts, Deliver(s.contacts, contact, result), contact, result);
    assert Charged(r) == result;
  }

  // ----- sending and charging -----

  /** Written ahead by the look-ahead, with both texts, and known not to be charged. */
  predicate Uncharged(d: StageDraft) {
    d.source == Some(AiLookahead) && d.quotaCommitted == Some(false) && d.subject != "" && d.body != ""
  }

  function HasId(id: string): Contact -> bool {
    (c: Contact) => c.id == id
  }

  /** One charge more is asked for: for the first uncharged draft of the contact, if there is one. */
  ghost predicate ChargesFor(contacts: seq<Contact>, id: string, was: multiset<Commit>, now: multiset<Commit>) {
    || (exists c, d :: FirstWith(contacts, HasId(id), c) && FirstWith(c.drafts, Uncharged, d)
                       && now == was + multiset{Commit(id, d.id)})
    || ((forall c, d :: FirstWith(contacts, HasId(id), c) && d in c.drafts ==> !Uncharged(d)) && now == was)
  }

  lemma {:induction false} UncommittedIsFirst(drafts: seq<StageDraft>)
    ensures
      match FirstUncommitted(drafts)
      case Some(id) => exists d :: FirstWith(drafts, Uncharged, d) && d.id == id
      case None => forall d :: d in drafts ==> !Uncharged(d)
  {
    if drafts != [] && Uncharged(drafts[0]) {
      assert FirstWith(drafts, Uncharged, drafts[0]);
    } else if drafts != [] {
      UncommittedIsFirst(drafts[1..]);
      FirstLater(drafts, Uncharged);
      assert drafts == [drafts[0]] + drafts[1..];
    }
  }

  lemma ChargeStarts(s: State, contacts: seq<Contact>, id: string)
    ensures
      var t := StartCommit(s, contacts, id);
      t == s.(commits := t.commits) && ChargesFor(contacts, id, s.commits, t.commits)
  {
    FindByFirst(contacts, ContactId, id, HasId(id));
    var c := FindBy(contacts, ContactId, id);
    if c.Some? { UncommittedIsFirst(c.value.drafts); }
  }

  /** Opening a contact selects it and asks for the charge of its first uncharged draft. */
  lemma OpeningCharges(s: State, contact: string)
    ensures
      var t := Step(s, SelectContact(contact));
      && t == s.(queueComplete := false, selectedId := contact, commits := t.commits)
      && ChargesFor(s.contacts, contact, s.commits, t.commits)
  {
    ChargeStarts(s.(queueComplete := false, selectedId := contact), s.contacts, contact);
  }

  /** A completed send makes that draft of that contact SENT at that time; the next contact, if there is one, is opened
      and charged for, otherwise nothing is selected and the queue is complete. */
  lemma SendMovesOn(s: State, contact: string, draft: string, sentAt: string, next: Option<string>)
    ensures
      var t := Step(s, SendCompletes(contact, draft, sentAt, next));
      && Rewritten(s.contacts, t.contacts, contact, draft, (d: StageDraft) => d.(status := Sent, sentAt := Some(sentAt)))
      && match next
         case None => t == s.(contacts := t.contacts, queueComplete := true, selectedId := "")
         case Some(id) =>
           && t == s.(contacts := t.contacts, queueComplete := false, selectedId := id, commits := t.commits)
           && ChargesFor(t.contacts, id, s.commits, t.commits)
  {
    var sent := (d: StageDraft) => d.(status := Sent, sentAt := Some(sentAt));
    var updated := UpdateDraft(s.contacts, contact, draft, WithSent(sentAt));
    UpdateRewrites(s.contacts, contact, draft, WithSent(sentAt));
    assert Rewritten(s.contacts, updated, contact, draft, sent);
    if next.Some? { ChargeStarts(s.(contacts := updated), updated, next.value); }
  }

  /** The answer to a charge in flight: granted, that draft of that contact is charged; refused, nothing changes but
      that the charge is no longer in flight. */
  lemma ChargeAnswered(s: State, k: Commit, committed: bool)
    ensures
      var t := Step(s, CommitSettles(k, committed));
      if k !in s.commits then t == s
      else
        && t == s.(commits := s.commits - multiset{k}, contacts := t.contacts)
        && if committed
           then Rewritten(s.contacts, t.contacts, k.contactId, k.draftId,
                          (d: StageDraft) => d.(quotaCommitted := Some(true)))
           else t.contacts == s.contacts
  {
    if k in s.commits && committed {
      UpdateRewrites(s.contacts, k.contactId, k.draftId, WithCommitted());
      assert Rewritten(s.contacts, Step(s, CommitSettles(k, committed)).contacts, k.contactId, k.draftId,
                       (d: StageDraft) => d.(quotaCommitted := Some(true)));
    }
  }
}
