/** The look-ahead queue of the drafts stage (src/components/EmailDraftsStage.tsx) as a state and the
    effect of each event: review keys start runs, a run asks for one contact's draft at a time, and a
    newer run stops the older ones. Answers may arrive in any order. */
module LookaheadRuns {
  import opened Collections
  import opened LookaheadMerge

  /** A generation in flight: run, contact, and the contacts the run has still to ask for. */
  datatype Request = Request(run: nat, contactId: string, rest: seq<string>)

  /** A quota commit in flight. */
  datatype Commit = Commit(contactId: string, draftId: string)

  datatype State = State(
    contacts: seq<Contact>, selectedId: string, preparing: set<string>, queueComplete: bool,
    triggered: set<string>, runId: nat, requests: multiset<Request>, commits: multiset<Commit>)

  datatype GenerationReply = Answered(result: Result) | Failed

  datatype Event =
    | Review(fromContact: string, fromDraft: string, targets: seq<string>, active: bool)
    | GenerationSettles(request: Request, reply: GenerationReply)
    | DraftGenerated(contactId: string, result: Result, targets: seq<string>, active: bool)
    | SendCompletes(contactId: string, draftId: string, sentAt: string, next: Option<string>)
    | SelectContact(contactId: string)
    | CommitSettles(commit: Commit, committed: bool)
    | Refresh(contacts: seq<Contact>)

  function ReviewKey(contactId: string, draftId: string): string {
    contactId + ":" + draftId
  }

  /** One turn of the run's loop: stop if the run is over or superseded, otherwise ask for the next contact. */
  function AskNext(s: State, run: nat, targets: seq<string>): State {
    if targets == [] || run != s.runId then s
    else s.(preparing := s.preparing + {targets[0]},
            requests := s.requests + multiset{Request(run, targets[0], targets[1..])})
  }

  /** `active` is the writing view of a campaign that is not read-only; `targets` are the picked contacts. */
  function RunLookahead(s: State, fromContact: string, fromDraft: string, targets: seq<string>, active: bool): State {
    var key := ReviewKey(fromContact, fromDraft);
    if !active || key in s.triggered then s
    else
      var t := s.(triggered := s.triggered + {key});
      if targets == [] then t else AskNext(t.(runId := s.runId + 1), s.runId + 1, targets)
  }

  /** An answer (or a throw) takes the request out of flight and the contact's mark away; a usable
      result is merged. */
  function Landed(s: State, q: Request, reply: GenerationReply): State {
    s.(requests := s.requests - multiset{q}, preparing := s.preparing - {q.contactId},
       contacts := if reply.Answered? && reply.result.ok && !reply.result.skipped
                   then Deliver(s.contacts, q.contactId, reply.result) else s.contacts)
  }

  /** A throw ends the run; any answer lets its loop go on. */
  function GenerationSettled(s: State, q: Request, reply: GenerationReply): State {
    if q !in s.requests then s
    else if reply.Answered? then AskNext(Landed(s, q, reply), q.run, q.rest)
    else Landed(s, q, reply)
  }

  // ----- sending and quota -----

  function ContactId(c: Contact): string { c.id }

  predicate AwaitsCommit(d: StageDraft) {
    d.source == Some(AiLookahead) && d.quotaCommitted == Some(false) && d.subject != "" && d.body != ""
  }

  function FirstUncommitted(drafts: seq<StageDraft>): Option<string> {
    if drafts == [] then None
    else if AwaitsCommit(drafts[0]) then Some(drafts[0].id)
    else FirstUncommitted(drafts[1..])
  }

  function StartCommit(s: State, contacts: seq<Contact>, id: string): State {
    var contact := FindBy(contacts, ContactId, id);
    if contact.None? || FirstUncommitted(contact.value.drafts).None? then s
    else s.(commits := s.commits + multiset{Commit(id, FirstUncommitted(contact.value.drafts).value)})
  }

  function ChangeDraft(drafts: seq<StageDraft>, draftId: string, change: StageDraft -> StageDraft): seq<StageDraft> {
    MapSeq((d: StageDraft) => if d.id == draftId then change(d) else d, drafts)
  }

  function UpdateDraft(contacts: seq<Contact>, contactId: string, draftId: string, change: StageDraft -> StageDraft)
    : seq<Contact>
  {
    MapSeq((c: Contact) =>
             if c.id == contactId then c.(drafts := ChangeDraft(c.drafts, draftId, change)) else c, contacts)
  }

  function WithSent(sentAt: string): StageDraft -> StageDraft {
    (d: StageDraft) => d.(status := Sent, sentAt := Some(sentAt))
  }

  function WithCommitted(): StageDraft -> StageDraft {
    (d: StageDraft) => d.(quotaCommitted := Some(true))
  }

  function SendCompleted(s: State, contactId: string, draftId: string, sentAt: string, next: Option<string>): State {
    var updated := UpdateDraft(s.contacts, contactId, draftId, WithSent(sentAt));
    var t := s.(contacts := updated);
    match next
    case Some(id) => StartCommit(t, updated, id).(queueComplete := false, selectedId := id)
    case None => t.(queueComplete := true, selectedId := "")
  }

  function CommitSettled(s: State, commit: Commit, committed: bool): State {
    if commit !in s.commits then s
    else
      var t := s.(commits := s.commits - multiset{commit});
      if committed then t.(contacts := UpdateDraft(s.contacts, commit.contactId, commit.draftId, WithCommitted()))
      else t
  }

  /** A draft generated on the open screen is merged as AI work whose quota is already charged. */
  function Charged(r: Result): Result {
    r.(ok := true, quotaCommitted := Some(true), source := Some(Ai), personaId := None)
  }

  function Step(s: State, e: Event): State {
    match e
    case Review(contact, draft, targets, active) => RunLookahead(s, contact, draft, targets, active)
    case GenerationSettles(q, reply) => GenerationSettled(s, q, reply)
    case DraftGenerated(contact, r, targets, active) =>
      RunLookahead(s.(contacts := Deliver(s.contacts, contact, Charged(r))), contact, r.draftId, targets, active)
    case SendCompletes(contact, draft, sentAt, next) => SendCompleted(s, contact, draft, sentAt, next)
    case SelectContact(contact) =>
      StartCommit(s.(queueComplete := false, selectedId := contact), s.contacts, contact)
    case CommitSettles(commit, committed) => CommitSettled(s, commit, committed)
    case Refresh(contacts) => s.(contacts := contacts)
  }

  function Mounted(contacts: seq<Contact>, selectedId: string): State {
    State(contacts, selectedId, {}, false, {}, 0, multiset{}, multiset{})
  }

  function After(s: State, es: seq<Event>): State {
    if es == [] then s else Step(After(s, es[..|es| - 1]), es[|es| - 1])
  }

  // ----- invariant -----

  /** Someone is working on `id`. */
  ghost predicate InFlight(requests: multiset<Request>, id: string) {
    exists q :: q in requests && q.contactId == id
  }

  /** Runs are numbered, no run has two requests in flight, and a contact is shown as being prepared
      only while a request for it is in flight. */
  ghost predicate Queue(requests: multiset<Request>, runId: nat, preparing: set<string>) {
    && (forall q :: q in requests ==> 1 <= q.run <= runId && requests[q] == 1)
    && (forall p, q :: p in requests && q in requests && p.run == q.run ==> p == q)
    && (forall id :: id in preparing ==> InFlight(requests, id))
  }

  ghost predicate Inv(s: State) {
    Queue(s.requests, s.runId, s.preparing)
  }

  lemma AskNextKeepsInv(s: State, run: nat, targets: seq<string>)
    requires Inv(s) && 1 <= run <= s.runId && (forall q :: q in s.requests ==> q.run != run)
    ensures Inv(AskNext(s, run, targets))
  {
    var t := AskNext(s, run, targets);
    forall id | id in t.preparing ensures InFlight(t.requests, id) {
      if id in s.preparing {
        var q :| q in s.requests && q.contactId == id;
        assert q in t.requests;
      } else {
        assert Request(run, targets[0], targets[1..]) in t.requests;
      }
    }
  }

  lemma RunLookaheadKeepsInv(s: State, contact: string, draft: string, targets: seq<string>, active: bool)
    requires Inv(s)
    ensures Inv(RunLookahead(s, contact, draft, targets, active))
  {
    var key := ReviewKey(contact, draft);
    if active && key !in s.triggered && targets != [] {
      var t := s.(triggered := s.triggered + {key}).(runId := s.runId + 1);
      assert Inv(t);
      AskNextKeepsInv(t, s.runId + 1, targets);
    }
  }

  lemma LandingKeepsInv(s: State, q: Request, reply: GenerationReply)
    requires Inv(s) && q in s.requests
    ensures var t := Landed(s, q, reply); Inv(t) && forall p :: p in t.requests ==> p.run != q.run
  {
    var rest := s.requests - multiset{q};
    forall id | id in s.preparing - {q.contactId} ensures InFlight(rest, id) {
      var p :| p in s.requests && p.contactId == id;
      assert p in rest;
    }
  }

  lemma GenerationSettledKeepsInv(s: State, q: Request, reply: GenerationReply)
    requires Inv(s)
    ensures Inv(GenerationSettled(s, q, reply))
  {
    if q in s.requests {
      LandingKeepsInv(s, q, reply);
      if reply.Answered? { AskNextKeepsInv(Landed(s, q, reply), q.run, q.rest); }
    }
  }

  lemma StepKeepsInv(s: State, e: Event)
    requires Inv(s)
    ensures Inv(Step(s, e))
  {
    match e
    case Review(contact, draft, targets, active) => RunLookaheadKeepsInv(s, contact, draft, targets, active);
    case GenerationSettles(q, reply) => GenerationSettledKeepsInv(s, q, reply);
    case DraftGenerated(contact, r, targets, active) =>
      RunLookaheadKeepsInv(s.(contacts := Deliver(s.contacts, contact, Charged(r))), contact, r.draftId, targets, active);
    case SendCompletes(contact, draft, sentAt, next) =>
    case SelectContact(contact) =>
    case CommitSettles(commit, committed) =>
    case Refresh(contacts) =>
  }

  /** In every run of the stage: at most one request in flight per look-ahead run, and every contact
      shown as being prepared has one; in particular none is shown when nothing is in flight. */
  lemma {:induction false} RunKeepsInv(contacts: seq<Contact>, selectedId: string, es: seq<Event>)
    ensures
      var s := After(Mounted(contacts, selectedId), es);
      Inv(s) && (s.requests == multiset{} ==> s.preparing == {})
  {
    var s := After(Mounted(contacts, selectedId), es);
    if es != [] {
      RunKeepsInv(contacts, selectedId, es[..|es| - 1]);
      StepKeepsInv(After(Mounted(contacts, selectedId), es[..|es| - 1]), es[|es| - 1]);
    }
    if s.preparing != {} {
      var id :| id in s.preparing;
      var q :| q in s.requests && q.contactId == id;
    }
  }

  lemma StepMovesSelection(s: State, e: Event)
    requires s.queueComplete ==> s.selectedId == ""
    ensures Step(s, e).queueComplete ==> Step(s, e).selectedId == ""
    ensures Step(s, e).selectedId != s.selectedId ==> e.SelectContact? || e.SendCompletes?
  {
    match e
    case Review(contact, draft, targets, active) =>
    case GenerationSettles(q, reply) =>
    case _ =>
  }

  /** In every run: the queue is shown as complete only with no contact selected, and no look-ahead, late
      answer, quota commit or reload ever moves the selection. */
  lemma {:induction false} SelectionIsTheUsers(contacts: seq<Contact>, selectedId: string, es: seq<Event>, e: Event)
    ensures
      var s := After(Mounted(contacts, selectedId), es);
      && (s.queueComplete ==> s.selectedId == "")
      && (!e.SelectContact? && !e.SendCompletes? ==> Step(s, e).selectedId == s.selectedId)
  {
    if es != [] { SelectionIsTheUsers(contacts, selectedId, es[..|es| - 1], es[|es| - 1]); }
    var s := After(Mounted(contacts, selectedId), es);
    if es != [] { StepMovesSelection(After(Mounted(contacts, selectedId), es[..|es| - 1]), es[|es| - 1]); }
    StepMovesSelection(s, e);
  }

  // ----- each review key starts at most one run -----

  /** The event offers this review key to an active stage. */
  predicate Offers(e: Event, key: string) {
    || (e.Review? && e.active && ReviewKey(e.fromContact, e.fromDraft) == key)
    || (e.DraftGenerated? && e.active && ReviewKey(e.contactId, e.result.draftId) == key)
  }

  lemma StepRemembersKeys(s: State, e: Event, key: string)
    ensures key in s.triggered || Offers(e, key) <==> key in Step(s, e).triggered
  {}

  lemma {:induction false} RunRemembersKeys(s: State, es: seq<Event>, i: nat, key: string)
    requires i < |es| && Offers(es[i], key)
    ensures key in After(s, es).triggered
  {
    StepRemembersKeys(After(s, es[..|es| - 1]), es[|es| - 1], key);
    if i < |es| - 1 { RunRemembersKeys(s, es[..|es| - 1], i, key); }
  }

  /** Once a review key has been offered, offering it again starts no run: opening the draft again
      changes nothing at all, and generating it again only merges the draft. */
  lemma ReviewKeyStartsOneRun(s: State, es: seq<Event>, i: nat, again: Event, key: string)
    requires i < |es| && Offers(es[i], key) && Offers(again, key)
    ensures
      var before, after := After(s, es), Step(After(s, es), again);
      && after.runId == before.runId && after.requests == before.requests && after.preparing == before.preparing
      && (again.Review? ==> after == before)
  {
    RunRemembersKeys(s, es, i, key);
  }

  // ----- a superseded run asks for nothing more -----

  lemma StartAsksForNewestOnly(s: State, contact: string, draft: string, targets: seq<string>, active: bool, q: Request)
    ensures var t := RunLookahead(s, contact, draft, targets, active);
      s.runId <= t.runId && (q in t.requests && q.run < s.runId ==> q in s.requests)
  {}

  lemma SettlingAsksForNewestOnly(s: State, p: Request, reply: GenerationReply, q: Request)
    ensures var t := GenerationSettled(s, p, reply);
      s.runId == t.runId && (q in t.requests && q.run < s.runId ==> q in s.requests)
  {}

  lemma StepAsksForNewestOnly(s: State, e: Event, q: Request)
    ensures s.runId <= Step(s, e).runId
    ensures q in Step(s, e).requests && q.run < s.runId ==> q in s.requests
  {
    match e
    case Review(contact, draft, targets, active) => StartAsksForNewestOnly(s, contact, draft, targets, active, q);
    case GenerationSettles(p, reply) => SettlingAsksForNewestOnly(s, p, reply, q);
    case DraftGenerated(contact, r, targets, active) =>
      var merged := s.(contacts := Deliver(s.contacts, contact, Charged(r)));
      StartAsksForNewestOnly(merged, contact, r.draftId, targets, active, q);
    case _ =>
  }

  /** Whatever happens after a newer run has started, the older ones issue no further request: all that
      is ever in flight for them was in flight already. */
  lemma {:induction false} SupersededRunsAskNothing(s: State, es: seq<Event>, q: Request)
    requires q in After(s, es).requests && q.run < s.runId
    ensures q in s.requests && s.runId <= After(s, es).runId
  {
    if es != [] {
      var mid := After(s, es[..|es| - 1]);
      RunIdGrows(s, es[..|es| - 1]);
      StepAsksForNewestOnly(mid, es[|es| - 1], q);
      SupersededRunsAskNothing(s, es[..|es| - 1], q);
    }
  }

  lemma {:induction false} RunIdGrows(s: State, es: seq<Event>)
    ensures s.runId <= After(s, es).runId
  {
    if es != [] {
      RunIdGrows(s, es[..|es| - 1]);
      StepAsksForNewestOnly(After(s, es[..|es| - 1]), es[|es| - 1], Request(0, "", []));
    }
  }

  // ----- when the preparing marks are exact -----

  ghost predicate Exact(s: State) {
    forall id :: id in s.preparing <==> InFlight(s.requests, id)
  }

  /** After an answer the run goes straight on to the same contact. */
  predicate AsksAgain(s: State, q: Request, reply: GenerationReply) {
    reply.Answered? && q.run == s.runId && q.rest != [] && q.rest[0] == q.contactId
  }

  lemma OneMore(requests: multiset<Request>, q: Request, id: string)
    ensures InFlight(requests + multiset{q}, id) <==> InFlight(requests, id) || q.contactId == id
  {
    var more := requests + multiset{q};
    assert q in more;
    if InFlight(requests, id) {
      var p :| p in requests && p.contactId == id;
      assert p in more;
    }
    if InFlight(more, id) && q.contactId != id {
      var p :| p in more && p.contactId == id;
      assert p in requests;
    }
  }

  /** Whether an answer lets its run ask for another contact. */
  predicate AsksOn(s: State, q: Request, reply: GenerationReply) {
    reply.Answered? && q.rest != [] && q.run == s.runId
  }

  lemma SettledShape(s: State, q: Request, reply: GenerationReply)
    requires q in s.requests
    ensures
      var t, rest, on := Step(s, GenerationSettles(q, reply)), s.requests - multiset{q}, AsksOn(s, q, reply);
      && t.preparing == s.preparing - {q.contactId} + (if on then {q.rest[0]} else {})
      && t.requests == if on then rest + multiset{Request(q.run, q.rest[0], q.rest[1..])} else rest
  {}

  lemma MarkAfter(s: State, q: Request, reply: GenerationReply, id: string)
    requires Exact(s) && q in s.requests
    ensures
      var t, rest := Step(s, GenerationSettles(q, reply)), s.requests - multiset{q};
      var on := AsksOn(s, q, reply) && id == q.rest[0];
      && (id in t.preparing <==> (InFlight(rest, id) && id != q.contactId) || on)
      && (InFlight(t.requests, id) <==> InFlight(rest, id) || on)
  {
    var rest := s.requests - multiset{q};
    SettledShape(s, q, reply);
    assert rest + multiset{q} == s.requests;
    OneMore(rest, q, id);
    if AsksOn(s, q, reply) { OneMore(rest, Request(q.run, q.rest[0], q.rest[1..]), id); }
  }

  /** An answer removes the mark of its contact even if another run is still generating for it: marks that
      were exact stay exact if and only if no other request for that contact is in flight, or the run
      goes straight on to the same contact. */
  lemma MarksStayExact(s: State, q: Request, reply: GenerationReply)
    requires Exact(s) && q in s.requests
    ensures Exact(Step(s, GenerationSettles(q, reply)))
            <==> AsksAgain(s, q, reply) || !InFlight(s.requests - multiset{q}, q.contactId)
  {
    var t := Step(s, GenerationSettles(q, reply));
    MarkAfter(s, q, reply, q.contactId);
    forall id ensures id != q.contactId ==> (id in t.preparing <==> InFlight(t.requests, id)) {
      MarkAfter(s, q, reply, id);
    }
  }

  lemma AskingMarks(s: State, run: nat, targets: seq<string>)
    requires Exact(s)
    ensures Exact(AskNext(s, run, targets))
  {
    if targets != [] && run == s.runId {
      forall id ensures id in AskNext(s, run, targets).preparing <==> InFlight(AskNext(s, run, targets).requests, id) {
        OneMore(s.requests, Request(run, targets[0], targets[1..]), id);
      }
    }
  }

  lemma StartingMarks(s: State, contact: string, draft: string, targets: seq<string>, active: bool)
    requires Exact(s)
    ensures Exact(RunLookahead(s, contact, draft, targets, active))
  {
    var key := ReviewKey(contact, draft);
    if active && key !in s.triggered && targets != [] {
      AskingMarks(s.(triggered := s.triggered + {key}).(runId := s.runId + 1), s.runId + 1, targets);
    }
  }

  /** The one event that makes the marks wrong. */
  ghost predicate Unmarks(s: State, e: Event) {
    && e.GenerationSettles? && e.request in s.requests && !AsksAgain(s, e.request, e.reply)
    && InFlight(s.requests - multiset{e.request}, e.request.contactId)
  }

  /** Exact marks stay exact, except in exactly the case `Unmarks`. */
  lemma StepUnmarksExactly(s: State, e: Event)
    requires Exact(s)
    ensures Exact(Step(s, e)) <==> !Unmarks(s, e)
  {
    match e
    case Review(contact, draft, targets, active) => StartingMarks(s, contact, draft, targets, active);
    case GenerationSettles(q, reply) => if q in s.requests { MarksStayExact(s, q, reply); }
    case DraftGenerated(contact, r, targets, active) =>
      StartingMarks(s.(contacts := Deliver(s.contacts, contact, Charged(r))), contact, r.draftId, targets, active);
    case _ =>
  }

  /** Before the run and after each of its events, the marks are exact. */
  ghost predicate AlwaysExact(contacts: seq<Contact>, selectedId: string, es: seq<Event>) {
    && Exact(After(Mounted(contacts, selectedId), es))
    && (es != [] ==> AlwaysExact(contacts, selectedId, es[..|es| - 1]))
  }

  ghost predicate NeverUnmarks(contacts: seq<Contact>, selectedId: string, es: seq<Event>) {
    es != [] ==>
      var pre := es[..|es| - 1];
      NeverUnmarks(contacts, selectedId, pre) && !Unmarks(After(Mounted(contacts, selectedId), pre), es[|es| - 1])
  }

  /** In every run: the contacts shown as being prepared are those with a request in flight the whole time, if
      and only if no answer arrives for a contact that another run is generating for, except where its own run
      goes straight on to that contact. */
  lemma {:induction false} ExactUnlessUnmarked(contacts: seq<Contact>, selectedId: string, es: seq<Event>)
    ensures AlwaysExact(contacts, selectedId, es) <==> NeverUnmarks(contacts, selectedId, es)
  {
    if es != [] {
      var pre := es[..|es| - 1];
      ExactUnlessUnmarked(contacts, selectedId, pre);
      if AlwaysExact(contacts, selectedId, pre) {
        StepUnmarksExactly(After(Mounted(contacts, selectedId), pre), es[|es| - 1]);
      }
    }
  }
}
