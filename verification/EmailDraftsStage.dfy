/** The drafts stage as the object it is (src/components/EmailDraftsStage.tsx): one method per handler or
    answer, changing the fields in place. Each does exactly what `LookaheadRuns` says of its event, so
    the theorems about runs of that queue are theorems about sequences of these calls. */
module EmailDraftsStage {
  import opened Collections
  import opened LookaheadMerge
  import opened LookaheadRuns

  class DraftsStage {
    var stageContacts: seq<Contact>
    var selectedId: string
    var preparingIds: set<string>
    var queueComplete: bool
    var triggeredReviewKeys: set<string>
    var lookaheadRunId: nat

    // calls waiting for their answers
    var generations: multiset<Request>
    var quotaCommits: multiset<Commit>

    function Snapshot(): State
      reads this
    {
      State(stageContacts, selectedId, preparingIds, queueComplete, triggeredReviewKeys, lookaheadRunId,
            generations, quotaCommits)
    }

    ghost predicate Valid()
      reads this
    {
      Inv(Snapshot())
    }

    constructor (contacts: seq<Contact>, initialId: string)
      ensures Valid() && Snapshot() == Mounted(contacts, initialId)
    {
      stageContacts, selectedId, preparingIds, queueComplete := contacts, initialId, {}, false;
      triggeredReviewKeys, lookaheadRunId := {}, 0;
      generations, quotaCommits := multiset{}, multiset{};
    }

    /** The head of the loop over `targets`: a superseded run breaks out. */
    method NextTarget(run: nat, targets: seq<string>)
      modifies this`preparingIds, this`generations
      ensures Snapshot() == AskNext(old(Snapshot()), run, targets)
    {
      if targets != [] && run == lookaheadRunId {
        preparingIds := preparingIds + {targets[0]};
        generations := generations + multiset{Request(run, targets[0], targets[1..])};
      }
    }

    /** A review key starts one run at most, and what a new run asks for carries a number no request in
        flight has. */
    method StartLookahead(fromContact: string, fromDraft: string, targets: seq<string>, active: bool)
      requires Valid()
      modifies this`triggeredReviewKeys, this`lookaheadRunId, this`preparingIds, this`generations
      ensures Snapshot() == RunLookahead(old(Snapshot()), fromContact, fromDraft, targets, active)
      ensures ReviewKey(fromContact, fromDraft) in old(triggeredReviewKeys) ==> Snapshot() == old(Snapshot())
      ensures generations != old(generations) ==>
                && generations == old(generations) + multiset{Request(lookaheadRunId, targets[0], targets[1..])}
                && forall q :: q in old(generations) ==> q.run < lookaheadRunId
    {
      var reviewKey := ReviewKey(fromContact, fromDraft);
      if !active || reviewKey in triggeredReviewKeys { return; }
      triggeredReviewKeys := triggeredReviewKeys + {reviewKey};
      if targets == [] { return; }
      lookaheadRunId := lookaheadRunId + 1;
      NextTarget(lookaheadRunId, targets);
    }

    /** The result is merged and the `finally` block runs. */
    method Land(q: Request, reply: GenerationReply)
      modifies this`stageContacts, this`preparingIds, this`generations
      ensures Snapshot() == Landed(old(Snapshot()), q, reply)
    {
      generations := generations - multiset{q};
      if reply.Answered? && reply.result.ok && !reply.result.skipped {
        stageContacts := Deliver(stageContacts, q.contactId, reply.result);
      }
      preparingIds := preparingIds - {q.contactId};
    }

    /** Only the newest run asks on, and only for the next of its own contacts. */
    method GenerationAnswered(q: Request, reply: GenerationReply)
      modifies this`stageContacts, this`preparingIds, this`generations
      ensures Snapshot() == GenerationSettled(old(Snapshot()), q, reply)
      ensures forall p :: p in generations && p !in old(generations) ==>
                          p.run == q.run == lookaheadRunId && [p.contactId] + p.rest == q.rest
    {
      if q !in generations { return; }
      Land(q, reply);
      if reply.Answered? { NextTarget(q.run, q.rest); }
    }

    method OnDraftGenerated(contactId: string, result: Result, targets: seq<string>, active: bool)
      requires Valid()
      modifies this`stageContacts, this`triggeredReviewKeys, this`lookaheadRunId, this`preparingIds, this`generations
      ensures Snapshot() == Step(old(Snapshot()), DraftGenerated(contactId, result, targets, active))
    {
      stageContacts := Deliver(stageContacts, contactId, Charged(result));
      StartLookahead(contactId, result.draftId, targets, active);
    }

    method CommitLookaheadQuota(contactId: string)
      modifies this`quotaCommits
      ensures Snapshot() == StartCommit(old(Snapshot()), stageContacts, contactId)
    {
      var contact := FindBy(stageContacts, ContactId, contactId);
      if contact.None? { return; }
      var uncommitted := FirstUncommitted(contact.value.drafts);
      if uncommitted.Some? {
        quotaCommits := quotaCommits + multiset{Commit(contactId, uncommitted.value)};
      }
    }

    method QuotaCommitAnswered(commit: Commit, committed: bool)
      modifies this`stageContacts, this`quotaCommits
      ensures Snapshot() == CommitSettled(old(Snapshot()), commit, committed)
    {
      if commit !in quotaCommits { return; }
      quotaCommits := quotaCommits - multiset{commit};
      if committed {
        stageContacts := UpdateDraft(stageContacts, commit.contactId, commit.draftId, WithCommitted());
      }
    }

    method HandleSelectContact(contactId: string)
      modifies this`queueComplete, this`selectedId, this`quotaCommits
      ensures Snapshot() == Step(old(Snapshot()), Event.SelectContact(contactId))
    {
      queueComplete := false;
      selectedId := contactId;
      CommitLookaheadQuota(contactId);
    }

    method HandleSendComplete(contactId: string, draftId: string, sentAt: string, next: Option<string>)
      modifies this`stageContacts, this`queueComplete, this`selectedId, this`quotaCommits
      ensures Snapshot() == SendCompleted(old(Snapshot()), contactId, draftId, sentAt, next)
    {
      stageContacts := UpdateDraft(stageContacts, contactId, draftId, WithSent(sentAt));
      if next.Some? {
        CommitLookaheadQuota(next.value);
        queueComplete := false;
        selectedId := next.value;
      } else {
        selectedId := "";
        queueComplete := true;
      }
    }

    /** The effect on the contacts of the page. */
    method ContactsChanged(contacts: seq<Contact>)
      modifies this`stageContacts
      ensures Snapshot() == Step(old(Snapshot()), Refresh(contacts))
    {
      stageContacts := contacts;
    }

    /** Any event: the stage moves as the queue does and stays valid. */
    method Dispatch(e: Event)
      requires Valid()
      modifies this
      ensures Valid() && Snapshot() == Step(old(Snapshot()), e)
    {
      StepKeepsInv(Snapshot(), e);
      match e
      case Review(contact, draft, targets, active) => StartLookahead(contact, draft, targets, active);
      case GenerationSettles(q, reply) => GenerationAnswered(q, reply);
      case DraftGenerated(contact, r, targets, active) => OnDraftGenerated(contact, r, targets, active);
      case SendCompletes(contact, draft, sentAt, next) => HandleSendComplete(contact, draft, sentAt, next);
      case SelectContact(contact) => HandleSelectContact(contact);
      case CommitSettles(commit, committed) => QuotaCommitAnswered(commit, committed);
      case Refresh(contacts) => ContactsChanged(contacts);
    }
  }
}
