/** Who may turn a draft SENT: only a confirmed mark whose text was saved first, or a connected send. */
module DraftSentSafety {
  import opened Collections
  import opened DraftProtocol
  import opened DraftBookkeeping

  ghost predicate SentIn(drafts: seq<Draft>, id: string) {
    exists d :: d in drafts && d.id == id && d.status == Sent
  }

  /** The generation actions answer with status DRAFT, never SENT. */
  predicate FromGenerationAction(e: Event) {
    e.GenerationSettles? && e.generation.Generated? ==> e.generation.status != Some(ReplySent)
  }

  // ----- what happened at one position of a run -----

  /** Before the event `i` of the run. */
  function Before(c: Config, s0: State, es: seq<Event>, i: nat): State
    requires i <= |es|
  {
    After(c, s0, es[..i])
  }

  /** Event `i` confirms that the copy on screen was sent, for a draft that is not SENT yet. */
  ghost predicate MarkPressedAt(c: Config, s0: State, es: seq<Event>, i: nat, copy: Copy) {
    && i < |es| && (es[i] == PressMark || es[i] == AnswerConfirm(Yes))
    && OnScreen(Before(c, s0, es, i)) == Some(copy) && Selected(Before(c, s0, es, i)).value.status != Sent
  }

  /** Event `j` is the successful answer to a save of `copy` begun by a mark press. */
  ghost predicate MarkSavedAt(c: Config, s0: State, es: seq<Event>, j: nat, copy: Copy) {
    && j < |es| && es[j].MarkSaveSettles? && es[j].saveReply.SaveOk?
    && var call := Before(c, s0, es, j).send; call.Some? && call.value.MarkSaving? && call.value.copy == copy
  }

  /** Event `k` is the successful answer to marking the draft of `copy` as sent. */
  ghost predicate MarkedAt(c: Config, s0: State, es: seq<Event>, k: nat, copy: Copy) {
    k < |es| && es[k].MarkSettles? && es[k].markReply.MarkOk? && Before(c, s0, es, k).send == Some(Marking(copy))
  }

  ghost predicate ConnectPressedAt(c: Config, s0: State, es: seq<Event>, i: nat, copy: Copy) {
    i < |es| && es[i] == PressConnected && OnScreen(Before(c, s0, es, i)) == Some(copy)
  }

  /** Event `k` says that the mailbox accepted `copy`, and when. */
  ghost predicate ConnectedAt(c: Config, s0: State, es: seq<Event>, k: nat, copy: Copy) {
    && k < |es| && es[k].ConnectedSettles? && es[k].connectedReply.ConnectedOk? && es[k].connectedReply.sentAt != ""
    && Before(c, s0, es, k).send == Some(Connecting(copy))
  }

  ghost predicate MarkedWithItsText(c: Config, s0: State, es: seq<Event>, id: string) {
    exists copy: Copy, i: nat, j: nat, k: nat ::
      && copy.id == id && i < j < k
      && MarkPressedAt(c, s0, es, i, copy) && MarkSavedAt(c, s0, es, j, copy) && MarkedAt(c, s0, es, k, copy)
  }

  ghost predicate SentFromMailbox(c: Config, s0: State, es: seq<Event>, id: string) {
    exists copy: Copy, i: nat, k: nat ::
      copy.id == id && i < k && ConnectPressedAt(c, s0, es, i, copy) && ConnectedAt(c, s0, es, k, copy)
  }

  // ----- one step -----

  lemma UpsertMembers(drafts: seq<Draft>, d: Draft)
    ensures forall x :: x in Upsert(drafts, d) ==> x == d || x in drafts
  {
    if FindBy(drafts, IdOf, d.id).None? {
      SortFacts(drafts + [d], ByNumber);
      forall x | x in Upsert(drafts, d) ensures x == d || x in drafts {
        assert x in multiset(Upsert(drafts, d));
      }
    }
  }

  lemma ReshapedSent(was: seq<Draft>, now: seq<Draft>, sent: Option<string>, id: string)
    requires Reshaped(was, now, sent) && SentIn(now, id)
    ensures SentIn(was, id) || sent == Some(id)
  {
    var d :| d in now && d.id == id && d.status == Sent;
    var i :| 0 <= i < |now| && now[i] == d;
    assert was[i] in was;
  }

  lemma ReselectionMakesNoneSent(c: Config, s: State, e: Event, id: string)
    requires Reselects(e) && FromGenerationAction(e) && SentIn(Handle(c, s, e).drafts, id)
    ensures SentIn(s.drafts, id)
  {
    if e.GenerationSettles? && s.generating.Some? && CarriesDraft(e.generation) {
      UpsertMembers(s.drafts, DraftFrom(e.generation, s.generating.value));
    }
  }

  /** The only events that turn a draft SENT are the answers named by `SentBy`. */
  lemma OnlySendsMakeSent(c: Config, s: State, e: Event, id: string)
    requires Books(s) && FromGenerationAction(e)
    requires SentIn(Step(c, s, e).drafts, id) && !SentIn(s.drafts, id)
    ensures SentBy(s, e) == Some(id)
  {
    if Reselects(e) {
      ReselectionMakesNoneSent(c, s, e, id);
    } else {
      HandleGood(c, s, e);
      ReshapedSent(s.drafts, Handle(c, s, e).drafts, SentBy(s, e), id);
    }
  }

  /** How the send in flight came to be. */
  ghost predicate SendStarted(c: Config, s: State, e: Event, call: SendCall) {
    match call
    case MarkSaving(copy, _) =>
      && (e == PressMark || e == AnswerConfirm(Yes))
      && OnScreen(s) == Some(copy) && Selected(s).value.status != Sent
    case Marking(copy) =>
      && e.MarkSaveSettles? && e.saveReply.SaveOk?
      && s.send.Some? && s.send.value.MarkSaving? && s.send.value.copy == copy
    case Connecting(copy) => e == PressConnected && OnScreen(s) == Some(copy)
  }

  ghost predicate SendAccounted(c: Config, s: State, e: Event, call: Option<SendCall>) {
    call == s.send || call == None || SendStarted(c, s, e, call.value)
  }

  lemma MarkPressedAccounted(c: Config, s: State)
    ensures SendAccounted(c, s, PressMark, MarkPressed(s).send)
  {}

  lemma ConnectedPressedAccounted(c: Config, s: State)
    ensures SendAccounted(c, s, PressConnected, ConnectedPressed(c, s).send)
  {}

  lemma ConfirmedAccounted(c: Config, s: State, answer: Answer)
    ensures SendAccounted(c, s, AnswerConfirm(answer), Confirmed(c, s, answer).send)
  {}

  lemma MarkSaveAccounted(c: Config, s: State, reply: SaveReply)
    ensures SendAccounted(c, s, MarkSaveSettles(reply), MarkSaveSettled(s, reply).send)
  {}

  lemma SendAnswersAccounted(s: State, mark: MarkReply, connected: ConnectedReply)
    ensures MarkSettled(s, mark).send == s.send || MarkSettled(s, mark).send == None
    ensures ConnectedSettled(s, connected).send == s.send || ConnectedSettled(s, connected).send == None
  {}

  lemma SendEventAccounted(c: Config, s: State, e: Event)
    requires SendEvent(e)
    ensures SendAccounted(c, s, e, Handle(c, s, e).send)
  {
    match e
    case PressMark => MarkPressedAccounted(c, s);
    case PressConnected => ConnectedPressedAccounted(c, s);
    case AnswerConfirm(answer) => ConfirmedAccounted(c, s, answer);
    case MarkSaveSettles(reply) => MarkSaveAccounted(c, s, reply);
    case MarkSettles(reply) => SendAnswersAccounted(s, reply, ConnectedThrows);
    case ConnectedSettles(reply) => SendAnswersAccounted(s, MarkThrows, reply);
  }

  lemma SendStarts(c: Config, s: State, e: Event)
    requires Inv(c, s)
    ensures SendAccounted(c, s, e, Step(c, s, e).send)
  {
    if SendEvent(e) { SendEventAccounted(c, s, e); } else { HandleKeeps(c, s, e); }
    assert Step(c, s, e).send == Handle(c, s, e).send;
  }

  // ----- the run behind a send in flight -----

  ghost predicate Traced(c: Config, s0: State, es: seq<Event>, call: SendCall) {
    match call
    case MarkSaving(copy, _) => exists i: nat :: MarkPressedAt(c, s0, es, i, copy)
    case Marking(copy) =>
      exists i: nat, j: nat :: i < j && MarkPressedAt(c, s0, es, i, copy) && MarkSavedAt(c, s0, es, j, copy)
    case Connecting(copy) => exists i: nat :: ConnectPressedAt(c, s0, es, i, copy)
  }

  /** What happened at a position does not depend on what happens later. */
  lemma Persists(c: Config, s0: State, es: seq<Event>, i: nat, copy: Copy)
    requires es != [] && i < |es| - 1
    ensures
      var pre := es[..|es| - 1];
      && (MarkPressedAt(c, s0, pre, i, copy) ==> MarkPressedAt(c, s0, es, i, copy))
      && (MarkSavedAt(c, s0, pre, i, copy) ==> MarkSavedAt(c, s0, es, i, copy))
      && (MarkedAt(c, s0, pre, i, copy) ==> MarkedAt(c, s0, es, i, copy))
      && (ConnectPressedAt(c, s0, pre, i, copy) ==> ConnectPressedAt(c, s0, es, i, copy))
      && (ConnectedAt(c, s0, pre, i, copy) ==> ConnectedAt(c, s0, es, i, copy))
  {
    assert es[..|es| - 1][..i] == es[..i];
  }

  lemma TraceExtends(c: Config, s0: State, es: seq<Event>, call: SendCall)
    requires es != [] && Traced(c, s0, es[..|es| - 1], call)
    ensures Traced(c, s0, es, call)
  {
    var pre := es[..|es| - 1];
    match call
    case MarkSaving(copy, _) =>
      var i: nat :| MarkPressedAt(c, s0, pre, i, copy);
      Persists(c, s0, es, i, copy);
    case Marking(copy) =>
      var i: nat, j: nat :| i < j && MarkPressedAt(c, s0, pre, i, copy) && MarkSavedAt(c, s0, pre, j, copy);
      Persists(c, s0, es, i, copy);
      Persists(c, s0, es, j, copy);
    case Connecting(copy) =>
      var i: nat :| ConnectPressedAt(c, s0, pre, i, copy);
      Persists(c, s0, es, i, copy);
  }

  lemma StartIsTraced(c: Config, s0: State, es: seq<Event>, call: SendCall)
    requires es != [] && SendStarted(c, After(c, s0, es[..|es| - 1]), es[|es| - 1], call)
    requires var s := After(c, s0, es[..|es| - 1]); s.send.Some? ==> Traced(c, s0, es[..|es| - 1], s.send.value)
    ensures Traced(c, s0, es, call)
  {
    var n := |es| - 1;
    var s := After(c, s0, es[..n]);
    match call
    case MarkSaving(copy, _) => assert MarkPressedAt(c, s0, es, n, copy);
    case Marking(copy) =>
      TraceExtends(c, s0, es, s.send.value);
      var i: nat :| MarkPressedAt(c, s0, es, i, copy);
      assert MarkSavedAt(c, s0, es, n, copy);
      assert i != n;
    case Connecting(copy) => assert ConnectPressedAt(c, s0, es, n, copy);
  }

  lemma {:induction false} SendIsTraced(c: Config, drafts: seq<Draft>, length: Length, es: seq<Event>)
    requires DistinctIds(drafts)
    ensures
      var s0 := Mounted(drafts, length);
      After(c, s0, es).send.Some? ==> Traced(c, s0, es, After(c, s0, es).send.value)
  {
    var s0 := Mounted(drafts, length);
    if es != [] && After(c, s0, es).send.Some? {
      var n := |es| - 1;
      var s, call := After(c, s0, es[..n]), After(c, s0, es).send.value;
      SendIsTraced(c, drafts, length, es[..n]);
      RunKeepsInv(c, drafts, length, es[..n]);
      SendStarts(c, s, es[n]);
      if s.send == Some(call) { TraceExtends(c, s0, es, call); } else { StartIsTraced(c, s0, es, call); }
    }
  }

  lemma MarkEvidence(c: Config, s0: State, es: seq<Event>, copy: Copy)
    requires es != [] && Traced(c, s0, es[..|es| - 1], Marking(copy))
    requires MarkedAt(c, s0, es, |es| - 1, copy)
    ensures MarkedWithItsText(c, s0, es, copy.id)
  {
    var pre := es[..|es| - 1];
    var i: nat, j: nat :| i < j && MarkPressedAt(c, s0, pre, i, copy) && MarkSavedAt(c, s0, pre, j, copy);
    Persists(c, s0, es, i, copy);
    Persists(c, s0, es, j, copy);
    assert i < j < |es| - 1;
  }

  lemma MailboxEvidence(c: Config, s0: State, es: seq<Event>, copy: Copy)
    requires es != [] && Traced(c, s0, es[..|es| - 1], Connecting(copy))
    requires ConnectedAt(c, s0, es, |es| - 1, copy)
    ensures SentFromMailbox(c, s0, es, copy.id)
  {
    TraceExtends(c, s0, es, Connecting(copy));
    var i: nat :| ConnectPressedAt(c, s0, es, i, copy);
    assert es[i] == PressConnected && es[|es| - 1].ConnectedSettles?;
  }

  lemma EvidenceExtends(c: Config, s0: State, es: seq<Event>, id: string)
    requires es != []
    requires MarkedWithItsText(c, s0, es[..|es| - 1], id) || SentFromMailbox(c, s0, es[..|es| - 1], id)
    ensures MarkedWithItsText(c, s0, es, id) || SentFromMailbox(c, s0, es, id)
  {
    var pre := es[..|es| - 1];
    if MarkedWithItsText(c, s0, pre, id) {
      var copy: Copy, i: nat, j: nat, k: nat :|
        && copy.id == id && i < j < k
        && MarkPressedAt(c, s0, pre, i, copy) && MarkSavedAt(c, s0, pre, j, copy) && MarkedAt(c, s0, pre, k, copy);
      Persists(c, s0, es, i, copy);
      Persists(c, s0, es, j, copy);
      Persists(c, s0, es, k, copy);
    } else {
      var copy: Copy, i: nat, k: nat :|
        copy.id == id && i < k && ConnectPressedAt(c, s0, pre, i, copy) && ConnectedAt(c, s0, pre, k, copy);
      Persists(c, s0, es, i, copy);
      Persists(c, s0, es, k, copy);
    }
  }

  /** In every run, a draft that was not SENT when the screen was mounted is SENT later only if a mark
      press was followed by a successful save of the very text on screen at that press and then by a
      successful mark, or the mailbox accepted the text on screen at a send press. */
  lemma {:induction false} SentOnlyWithEvidence(c: Config, drafts: seq<Draft>, length: Length, es: seq<Event>, id: string)
    requires DistinctIds(drafts) && !SentIn(drafts, id)
    requires forall i :: 0 <= i < |es| ==> FromGenerationAction(es[i])
    requires SentIn(After(c, Mounted(drafts, length), es).drafts, id)
    ensures MarkedWithItsText(c, Mounted(drafts, length), es, id) || SentFromMailbox(c, Mounted(drafts, length), es, id)
  {
    var s0 := Mounted(drafts, length);
    assert es != [];
    var n := |es| - 1;
    var s := After(c, s0, es[..n]);
    if SentIn(s.drafts, id) {
      SentOnlyWithEvidence(c, drafts, length, es[..n], id);
      EvidenceExtends(c, s0, es, id);
    } else {
      RunKeepsInv(c, drafts, length, es[..n]);
      OnlySendsMakeSent(c, s, es[n], id);
      var copy := s.send.value.copy;
      SendIsTraced(c, drafts, length, es[..n]);
      if es[n].MarkSettles? {
        assert MarkedAt(c, s0, es, n, copy);
        MarkEvidence(c, s0, es, copy);
      } else {
        assert ConnectedAt(c, s0, es, n, copy);
        MailboxEvidence(c, s0, es, copy);
      }
    }
  }
}
