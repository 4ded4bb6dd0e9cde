/** Text on the screen and text on the server. The server stores what a call submits at a time of its own,
    between the call and its answer. A listed text that the server does not hold is looked after while it
    is under way to the server, while the server's text is under way to the screen, or while the page says
    that something is not saved; this module names the moves that leave one behind. */
module DraftUnsaved {
  import opened Collections
  import opened DraftProtocol
  import opened DraftBookkeeping

  /** The calls that make the server store a text: saves by number, the save of a mark, a connected send,
      and a generation. */
  datatype Call = Save(seqNo: nat) | MarkSave | Send | Write

  /** `held` is what the server holds, by draft id; `stored` is what it has stored for calls not yet answered. */
  datatype Server = Server(held: map<string, Copy>, stored: map<Call, Copy>)

  datatype World = World(screen: State, server: Server)

  /** Besides the screen's events and what the server stores for its calls, the server may store a text for
      anyone else: another session, or a call of this screen that has thrown before. */
  datatype Move = Screen(event: Event) | Store(call: Call, copy: Copy) | Overwrite(copy: Copy)

  function TextOf(drafts: seq<Draft>, id: string): Option<Copy> {
    var d := FindBy(drafts, IdOf, id);
    if d.Some? then Some(CopyOf(d.value)) else None
  }

  // ----- calls -----

  /** The text a call in flight has submitted; a generation submits none. */
  function Submitted(s: State, k: Call): Option<Copy> {
    match k
    case Save(n) => if n in s.saves then Some(s.saves[n].copy) else None
    case MarkSave => if s.send.Some? && s.send.value.MarkSaving? then Some(s.send.value.copy) else None
    case Send => if s.send.Some? && s.send.value.Connecting? then Some(s.send.value.copy) else None
    case Write => None
  }

  /** The call an event answers. */
  function Answered(e: Event): Option<Call> {
    match e
    case SaveSettles(n, _) => Some(Save(n))
    case MarkSaveSettles(_) => Some(MarkSave)
    case ConnectedSettles(_) => Some(Send)
    case GenerationSettles(_) => Some(Write)
    case _ => None
  }

  /** A call is stored once, and under the id it was made for. */
  predicate Storable(w: World, k: Call, copy: Copy) {
    && k !in w.server.stored
    && if k.Write? then w.screen.generating.Some?
       else Submitted(w.screen, k).Some? && Submitted(w.screen, k).value.id == copy.id
  }

  /** A positive answer to a call carries what was stored for it. A call may be refused or throw whether or
      not it was stored. */
  predicate Truthful(w: World, e: Event) {
    match e
    case SaveSettles(n, reply) => n in w.screen.saves ==> SaveTruthful(w, Save(n), reply)
    case MarkSaveSettles(reply) => Submitted(w.screen, MarkSave).Some? ==> SaveTruthful(w, MarkSave, reply)
    case GenerationSettles(r) =>
      w.screen.generating.Some? && CarriesDraft(r) ==>
        Write in w.server.stored && w.server.stored[Write] == Copy(r.draftId, r.subject, r.body)
    case _ => true
  }

  predicate SaveTruthful(w: World, k: Call, reply: SaveReply)
    requires Submitted(w.screen, k).Some?
  {
    match reply
    case SaveOk(subject, body) =>
      k in w.server.stored && w.server.stored[k] == Copy(Submitted(w.screen, k).value.id, subject, body)
    case _ => true
  }

  predicate Possible(w: World, m: Move) {
    match m
    case Screen(e) => Truthful(w, e)
    case Store(k, copy) => Storable(w, k, copy)
    case Overwrite(_) => true
  }

  function Made(c: Config, w: World, m: Move): World {
    match m
    case Screen(e) =>
      var stored := w.server.stored;
      World(Step(c, w.screen, e),
            w.server.(stored := if Answered(e).Some? then stored - {Answered(e).value} else stored))
    case Store(k, copy) =>
      w.(server := Server(w.server.held[copy.id := copy], w.server.stored[k := copy]))
    case Overwrite(copy) => w.(server := w.server.(held := w.server.held[copy.id := copy]))
  }

  /** Only possible moves happen. */
  function Next(c: Config, w: World, m: Move): World {
    if Possible(w, m) then Made(c, w, m) else w
  }

  // ----- looked after -----

  predicate Unsaved(w: World, id: string) {
    var text := TextOf(w.screen.drafts, id);
    text.Some? && (id !in w.server.held || w.server.held[id] != text.value)
  }

  /** A call other than `but` has submitted this very text and is not stored yet. */
  ghost predicate InFlight(w: World, but: Option<Call>, copy: Copy) {
    exists k: Call :: Submitted(w.screen, k) == Some(copy) && Some(k) != but && k !in w.server.stored
  }

  /** The answer to a call other than `but` will list this text. */
  ghost predicate Due(v: Server, but: Option<Call>, copy: Copy) {
    exists k: Call :: k in v.stored && v.stored[k] == copy && Some(k) != but && k != Send
  }

  /** The banner is on the page of a draft that is neither SENT nor sending. */
  function Shown(s: State): Option<Failure> {
    if Editable(s) then s.failure else None
  }

  predicate Announced(s: State, copy: Copy) {
    Shown(s).Some? && Shown(s).value.copy == copy
  }

  /** The page of the draft says that it has unsaved edits, or is about to once the newest save is answered. */
  predicate Marked(s: State, id: string) {
    s.dirty && Editable(s) && Selected(s).value.id == id
  }

  /** But for the call `but`, screen and server will not come to agree on this draft by themselves. */
  ghost predicate Adrift(w: World, but: Option<Call>, id: string) {
    && Unsaved(w, id) && !InFlight(w, but, TextOf(w.screen.drafts, id).value)
    && (id in w.server.held ==> !Due(w.server, but, w.server.held[id]))
  }

  ghost predicate Tended(w: World, id: string) {
    Adrift(w, None, id) ==> Announced(w.screen, TextOf(w.screen.drafts, id).value) || Marked(w.screen, id)
  }

  // ----- the moves that leave a text behind -----

  /** Another draft is put on screen: edit mark and banner go. */
  ghost predicate LeaveDrops(c: Config, w: World, e: Event, id: string) {
    SelectedKey(Handle(c, w.screen, e)) != SelectedKey(w.screen) && Adrift(w, None, id)
  }

  /** A draft is generated and put on screen: edit mark and banner go. Its own text can be out of date. */
  ghost predicate GenerationDrops(w: World, r: GenerationReply, id: string) {
    && w.screen.generating.Some?
    && if !CarriesDraft(r) then TextOf(w.screen.drafts, id).Some? && AnswerLost(w, Write, id)
       else if r.draftId != id then Adrift(w, Some(Write), id)
       else OutOfDate(w, Write, id, Copy(id, r.subject, r.body))
  }

  /** The call was all that looked after this text. */
  ghost predicate AnswerLost(w: World, k: Call, id: string)
    requires TextOf(w.screen.drafts, id).Some?
  {
    Adrift(w, Some(k), id) && !Announced(w.screen, TextOf(w.screen.drafts, id).value) && !Marked(w.screen, id)
  }

  /** The answer lists a text that the server no longer holds, and no other call will make them agree. */
  ghost predicate OutOfDate(w: World, k: Call, id: string, copy: Copy) {
    && (id !in w.server.held || w.server.held[id] != copy) && !InFlight(w, Some(k), copy)
    && (id in w.server.held ==> !Due(w.server, Some(k), w.server.held[id]))
  }

  /** A save is answered: by a throw; by a refusal that raises no banner for this text; by a success for
      another text, which takes the edit mark down when it is the newest; or by an older text. */
  ghost predicate SaveDrops(w: World, n: nat, reply: SaveReply, id: string) {
    var s := w.screen;
    && n in s.saves && TextOf(s.drafts, id).Some?
    && var request, text := s.saves[n].copy, TextOf(s.drafts, id).value;
       match reply
       case SaveThrows => AnswerLost(w, Save(n), id)
       case SaveRejected =>
         && Adrift(w, Some(Save(n)), id) && !Marked(s, id)
         && if n == s.saveSeq then !(Editable(s) && request == text) else !Announced(s, text)
       case SaveOk(subject, body) =>
         if request.id != id then n == s.saveSeq && Adrift(w, Some(Save(n)), id) && !Announced(s, text)
         else
           var copy := Copy(id, subject, body);
           && OutOfDate(w, Save(n), id, copy)
           && (n == s.saveSeq || (!Announced(s, copy) && !Marked(s, id)))
  }

  /** The save of a mark is answered: a success takes edit mark and banner down, whatever they were about. */
  ghost predicate MarkSaveDrops(w: World, reply: SaveReply, id: string) {
    var s := w.screen;
    && Submitted(s, MarkSave).Some? && TextOf(s.drafts, id).Some?
    && var request, text := Submitted(s, MarkSave).value, TextOf(s.drafts, id).value;
       match reply
       case SaveThrows => AnswerLost(w, MarkSave, id)
       case SaveRejected => Adrift(w, Some(MarkSave), id) && !Marked(s, id) && !(Editable(s) && request == text)
       case SaveOk(subject, body) =>
         if request.id != id then Adrift(w, Some(MarkSave), id)
         else OutOfDate(w, MarkSave, id, Copy(id, subject, body))
  }

  /** The draft on screen becomes SENT, and the page of a SENT draft shows no banner. */
  ghost predicate MarkDrops(w: World, reply: MarkReply, id: string) {
    var s := w.screen;
    && s.send.Some? && s.send.value.Marking? && reply.MarkOk? && SelectedKey(s) == Some(s.send.value.copy.id)
    && Adrift(w, None, id)
  }

  /** A connected send is answered: a success takes edit mark and banner down. */
  ghost predicate SendDrops(w: World, reply: ConnectedReply, id: string) {
    && Submitted(w.screen, Send).Some? && TextOf(w.screen.drafts, id).Some?
    && if reply.ConnectedOk? && reply.sentAt != "" then Adrift(w, Some(Send), id) else AnswerLost(w, Send, id)
  }

  /** The server stores what a connected send submitted, perhaps not to the letter: no answer will list it. */
  ghost predicate StoreDrops(w: World, k: Call, copy: Copy, id: string) {
    && k == Send && id == copy.id && TextOf(w.screen.drafts, id).Some?
    && var text := TextOf(w.screen.drafts, id).value;
       && text != copy && !InFlight(w, Some(Send), text) && !Due(w.server, None, copy)
       && !Announced(w.screen, text) && !Marked(w.screen, id)
  }

  /** The server stores a text for someone else. */
  ghost predicate OverwriteDrops(w: World, copy: Copy, id: string) {
    && id == copy.id && TextOf(w.screen.drafts, id).Some?
    && var text := TextOf(w.screen.drafts, id).value;
       && text != copy && !InFlight(w, None, text) && !Due(w.server, None, copy)
       && !Announced(w.screen, text) && !Marked(w.screen, id)
  }

  ghost predicate Drops(c: Config, w: World, m: Move, id: string) {
    match m
    case Overwrite(copy) => OverwriteDrops(w, copy, id)
    case Store(k, copy) => StoreDrops(w, k, copy, id)
    case Screen(SelectDraft(_)) => LeaveDrops(c, w, m.event, id)
    case Screen(ReturnToLatest) => LeaveDrops(c, w, m.event, id)
    case Screen(GenerationSettles(r)) => GenerationDrops(w, r, id)
    case Screen(SaveSettles(n, reply)) => SaveDrops(w, n, reply, id)
    case Screen(MarkSaveSettles(reply)) => MarkSaveDrops(w, reply, id)
    case Screen(MarkSettles(reply)) => MarkDrops(w, reply, id)
    case Screen(ConnectedSettles(reply)) => SendDrops(w, reply, id)
    case _ => false
  }

  // ----- texts -----

  lemma {:induction false} FindUpdated(drafts: seq<Draft>, target: string, change: Draft -> Draft, id: string)
    requires forall d: Draft :: change(d).id == d.id
    ensures
      var was, now := FindBy(drafts, IdOf, id), FindBy(UpdateById(drafts, target, change), IdOf, id);
      now == if was.Some? && id == target then Some(change(was.value)) else was
  {
    if drafts != [] {
      assert UpdateById(drafts, target, change)[1..] == UpdateById(drafts[1..], target, change);
      FindUpdated(drafts[1..], target, change, id);
      FindByFacts(drafts, IdOf, id);
    }
  }

  lemma FindIsMember(drafts: seq<Draft>, d: Draft)
    requires DistinctIds(drafts) && d in drafts
    ensures FindBy(drafts, IdOf, d.id) == Some(d)
  {
    FindByFacts(drafts, IdOf, d.id);
    OnePerTag(drafts, IdOf, d, FindBy(drafts, IdOf, d.id).value);
  }

  lemma WrittenText(drafts: seq<Draft>, target: string, reply: SaveReply, id: string)
    ensures
      TextOf(WriteBack(drafts, target, reply), id)
      == if TextOf(drafts, id).Some? && id == target && reply.SaveOk?
         then Some(Copy(id, reply.subject, reply.body)) else TextOf(drafts, id)
  {
    FindByFacts(drafts, IdOf, id);
    if reply.SaveOk? { FindUpdated(drafts, target, WithText(reply.subject, reply.body), id); }
  }

  lemma UpsertedText(drafts: seq<Draft>, d: Draft, id: string)
    requires DistinctIds(drafts)
    ensures TextOf(Upsert(drafts, d), id) == if id == d.id then Some(CopyOf(d)) else TextOf(drafts, id)
  {
    var now := Upsert(drafts, d);
    UpsertKeepsIds(drafts, d);
    FindByFacts(drafts, IdOf, d.id);
    FindByFacts(drafts, IdOf, id);
    FindByFacts(now, IdOf, id);
    UpsertIsMembers(drafts, d);
    FindIsMember(now, d);
    var was := FindBy(drafts, IdOf, id);
    if id != d.id && was.Some? { FindIsMember(now, was.value); }
  }

  lemma UpsertIsMembers(drafts: seq<Draft>, d: Draft)
    requires DistinctIds(drafts)
    ensures forall x :: x in Upsert(drafts, d) <==> x == d || (x in drafts && x.id != d.id)
  {
    var now := Upsert(drafts, d);
    FindByFacts(drafts, IdOf, d.id);
    if FindBy(drafts, IdOf, d.id).Some? {
      var k :| 0 <= k < |drafts| && drafts[k] == FindBy(drafts, IdOf, d.id).value;
      assert now[k] == d;
      forall x | x in drafts && x.id != d.id ensures x in now {
        var i :| 0 <= i < |drafts| && drafts[i] == x;
        assert now[i] == x;
      }
    } else {
      SortFacts(drafts + [d], ByNumber);
      forall x ensures x in now <==> x in drafts + [d] {
        assert x in now <==> x in multiset(now);
        assert x in drafts + [d] <==> x in multiset(drafts + [d]);
      }
    }
  }
}
