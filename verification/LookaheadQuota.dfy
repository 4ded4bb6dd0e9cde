/** Generation quota in the drafts stage (src/components/EmailDraftsStage.tsx): a look-ahead draft is
    charged when its contact is opened, and only then. */
module LookaheadQuota {
  import opened Collections
  import opened LookaheadMerge
  import opened LookaheadRuns

  ghost predicate ChargedDraft(drafts: seq<StageDraft>, draftId: string) {
    exists d :: d in drafts && d.id == draftId && d.quotaCommitted == Some(true)
  }

  /** The stage shows this draft of this contact as charged. */
  ghost predicate ChargedIn(contacts: seq<Contact>, contactId: string, draftId: string) {
    exists c :: c in contacts && c.id == contactId && ChargedDraft(c.drafts, draftId)
  }

  /** The result says, of this draft, that it is charged. */
  predicate SaysCharged(r: Result, draftId: string) {
    r.draftId == draftId && r.quotaCommitted == Some(true)
  }

  /** What the event reports about this draft of this contact. */
  ghost predicate Charges(s: State, e: Event, contactId: string, draftId: string) {
    match e
    case CommitSettles(commit, committed) => committed && commit == Commit(contactId, draftId) && commit in s.commits
    case GenerationSettles(q, reply) =>
      q in s.requests && q.contactId == contactId && reply.Answered? && reply.result.ok && SaysCharged(reply.result, draftId)
    case DraftGenerated(contact, r, _, _) => contact == contactId && r.draftId == draftId
    case Refresh(contacts) => ChargedIn(contacts, contactId, draftId)
    case _ => false
  }

  lemma MergeCharges(drafts: seq<StageDraft>, r: Result, draftId: string)
    requires ChargedDraft(MergeDrafts(drafts, r), draftId)
    ensures ChargedDraft(drafts, draftId) || SaysCharged(r, draftId)
  {
    if Complete(r) {
      var m := MergeDrafts(drafts, r);
      var d :| d in m && d.id == draftId && d.quotaCommitted == Some(true);
      if FindBy(drafts, IdOf, r.draftId).Some? {
        var i :| 0 <= i < |m| && m[i] == d;
        assert drafts[i] in drafts;
      } else {
        SortFacts(drafts + [NextDraft(r)], ByNumber);
        assert d in multiset(m);
        assert d in drafts + [NextDraft(r)];
      }
    }
  }

  lemma DeliverCharges(contacts: seq<Contact>, id: string, r: Result, contactId: string, draftId: string)
    requires ChargedIn(Deliver(contacts, id, r), contactId, draftId)
    ensures ChargedIn(contacts, contactId, draftId) || (id == contactId && SaysCharged(r, draftId))
  {
    var after := Deliver(contacts, id, r);
    var c :| c in after && c.id == contactId && ChargedDraft(c.drafts, draftId);
    var i :| 0 <= i < |after| && after[i] == c;
    assert contacts[i] in contacts;
    if contacts[i].id == id { MergeCharges(contacts[i].drafts, r, draftId); }
  }

  lemma ChangeCharges(drafts: seq<StageDraft>, draft: string, change: StageDraft -> StageDraft, draftId: string)
    requires forall d :: change(d).id == d.id
    requires ChargedDraft(ChangeDraft(drafts, draft, change), draftId)
    ensures ChargedDraft(drafts, draftId)
            || (draft == draftId && exists d :: change(d).quotaCommitted != d.quotaCommitted)
  {
    var after := ChangeDraft(drafts, draft, change);
    var d :| d in after && d.id == draftId && d.quotaCommitted == Some(true);
    var j :| 0 <= j < |after| && after[j] == d;
    assert drafts[j] in drafts;
  }

  /** An update of one draft charges nothing, or only that draft. */
  lemma UpdateCharges(contacts: seq<Contact>, id: string, draft: string, change: StageDraft -> StageDraft,
                      contactId: string, draftId: string)
    requires forall d :: change(d).id == d.id
    requires ChargedIn(UpdateDraft(contacts, id, draft, change), contactId, draftId)
    ensures ChargedIn(contacts, contactId, draftId)
            || (id == contactId && draft == draftId && exists d :: change(d).quotaCommitted != d.quotaCommitted)
  {
    var after := UpdateDraft(contacts, id, draft, change);
    var c :| c in after && c.id == contactId && ChargedDraft(c.drafts, draftId);
    var i :| 0 <= i < |after| && after[i] == c;
    assert contacts[i] in contacts;
    if contacts[i].id == id { ChangeCharges(contacts[i].drafts, draft, change, draftId); }
  }

  /** A draft becomes charged only in an event that reports it: the answer to a commit for that very
      draft, a generation that was charged already, or a fresh load of the page. */
  lemma OnlyReportsCharge(s: State, e: Event, contactId: string, draftId: string)
    requires ChargedIn(Step(s, e).contacts, contactId, draftId) && !ChargedIn(s.contacts, contactId, draftId)
    ensures Charges(s, e, contactId, draftId)
  {
    match e
    case Review(_, _, _, _) =>
    case GenerationSettles(q, reply) =>
      if q in s.requests && reply.Answered? && reply.result.ok && !reply.result.skipped {
        DeliverCharges(s.contacts, q.contactId, reply.result, contactId, draftId);
      }
    case DraftGenerated(contact, r, _, _) => DeliverCharges(s.contacts, contact, Charged(r), contactId, draftId);
    case SendCompletes(contact, draft, sentAt, next) =>
      UpdateCharges(s.contacts, contact, draft, WithSent(sentAt), contactId, draftId);
    case SelectContact(_) =>
    case CommitSettles(commit, committed) =>
      if commit in s.commits && committed {
        UpdateCharges(s.contacts, commit.contactId, commit.draftId, WithCommitted(), contactId, draftId);
      }
    case Refresh(_) =>
  }

  // ----- what is charged for -----

  lemma {:induction false} FirstUncommittedFacts(drafts: seq<StageDraft>)
    ensures FirstUncommitted(drafts).Some? ==>
              exists d :: d in drafts && d.id == FirstUncommitted(drafts).value && AwaitsCommit(d)
    ensures FirstUncommitted(drafts).None? ==> forall d :: d in drafts ==> !AwaitsCommit(d)
  {
    if drafts != [] {
      FirstUncommittedFacts(drafts[1..]);
      assert drafts == [drafts[0]] + drafts[1..];
    }
  }

  /** A look-ahead draft with text, not charged yet, of the contact that is open. */
  ghost predicate OpenAndUncharged(s: State, k: Commit) {
    && s.selectedId == k.contactId
    && exists c, d :: c in s.contacts && c.id == k.contactId && d in c.drafts && d.id == k.draftId && AwaitsCommit(d)
  }

  lemma StartCommitFacts(s: State, contacts: seq<Contact>, id: string, k: Commit)
    requires StartCommit(s, contacts, id).commits[k] != s.commits[k]
    ensures k.contactId == id && StartCommit(s, contacts, id).commits[k] == s.commits[k] + 1
    ensures exists c, d :: c in contacts && c.id == id && d in c.drafts && d.id == k.draftId && AwaitsCommit(d)
  {
    FindByFacts(contacts, ContactId, id);
    var c := FindBy(contacts, ContactId, id).value;
    FirstUncommittedFacts(c.drafts);
    var d :| d in c.drafts && d.id == FirstUncommitted(c.drafts).value && AwaitsCommit(d);
    assert c in contacts && d.id == k.draftId;
  }

  /** A charge is asked for only on opening a contact, once, and only for a look-ahead draft of that
      contact that has text and is not charged. */
  lemma ChargesOnlyOnOpening(s: State, e: Event, k: Commit)
    requires Step(s, e).commits[k] > s.commits[k]
    ensures Step(s, e).commits[k] == s.commits[k] + 1 && OpenAndUncharged(Step(s, e), k)
    ensures e == SelectContact(k.contactId) || (e.SendCompletes? && e.next == Some(k.contactId))
  {
    match e
    case SelectContact(contact) =>
      StartCommitFacts(s.(queueComplete := false, selectedId := contact), s.contacts, contact, k);
    case SendCompletes(contact, draft, sentAt, next) =>
      if next.Some? {
        var updated := UpdateDraft(s.contacts, contact, draft, WithSent(sentAt));
        StartCommitFacts(s.(contacts := updated), updated, next.value, k);
      }
    case _ =>
  }

  /** In every run from a freshly mounted stage, a draft shown as charged was charged when the page was
      loaded, or some event of the run reported it. */
  lemma {:induction false} ChargeIsTraced(contacts: seq<Contact>, selectedId: string, es: seq<Event>,
                                          contactId: string, draftId: string)
    requires ChargedIn(After(Mounted(contacts, selectedId), es).contacts, contactId, draftId)
    ensures ChargedIn(contacts, contactId, draftId)
            || exists i :: 0 <= i < |es| && Charges(After(Mounted(contacts, selectedId), es[..i]), es[i], contactId, draftId)
  {
    if es != [] {
      var n, pre := |es| - 1, es[..|es| - 1];
      var s := After(Mounted(contacts, selectedId), pre);
      if ChargedIn(s.contacts, contactId, draftId) {
        ChargeIsTraced(contacts, selectedId, pre, contactId, draftId);
        assert forall i :: 0 <= i < n ==> pre[..i] == es[..i] && pre[i] == es[i];
      } else {
        OnlyReportsCharge(s, es[n], contactId, draftId);
      }
    }
  }
}
