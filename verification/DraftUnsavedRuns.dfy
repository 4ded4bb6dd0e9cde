/** Text on screen and server over whole runs: when it is looked after throughout, and when screen and
    server agree in the end. */
module DraftUnsavedRuns {
  import opened Collections
  import opened DraftProtocol
  import opened DraftBookkeeping
  import opened DraftUnsaved
  import opened DraftUnsavedSteps

  /** The page loads what the server holds. */
  function AsLoaded(drafts: seq<Draft>): map<string, Copy> {
    map id | id in (set d | d in drafts :: d.id) && TextOf(drafts, id).Some? :: TextOf(drafts, id).value
  }

  function Loaded(drafts: seq<Draft>, length: Length): World {
    World(Mounted(drafts, length), Server(AsLoaded(drafts), map[]))
  }

  function AfterMoves(c: Config, w: World, ms: seq<Move>): World {
    if ms == [] then w else Next(c, AfterMoves(c, w, ms[..|ms| - 1]), ms[|ms| - 1])
  }

  ghost predicate AllTended(w: World) {
    forall id :: Tended(w, id)
  }

  /** The move, if it is possible, leaves no listed text behind. */
  ghost predicate DropsNone(c: Config, w: World, m: Move) {
    Possible(w, m) ==> forall id :: !Drops(c, w, m, id)
  }

  lemma MoveDropsNone(c: Config, w: World, m: Move)
    requires Sound(c, w) && AllTended(w)
    ensures AllTended(Next(c, w, m)) <==> DropsNone(c, w, m)
  {
    forall id ensures Tended(Next(c, w, m), id) <==> !(Possible(w, m) && Drops(c, w, m, id)) {
      assert Tended(w, id);
      MoveDropsExactly(c, w, m, id);
    }
  }

  lemma LoadedIsTended(c: Config, drafts: seq<Draft>, length: Length)
    requires DistinctIds(drafts)
    ensures Sound(c, Loaded(drafts, length)) && AllTended(Loaded(drafts, length))
  {
    var w := Loaded(drafts, length);
    forall id | id in w.server.held ensures w.server.held[id].id == id { FindByFacts(drafts, IdOf, id); }
    forall id ensures Tended(w, id) { FindByFacts(drafts, IdOf, id); }
  }

  lemma {:induction false} RunKeepsSound(c: Config, drafts: seq<Draft>, length: Length, ms: seq<Move>)
    requires DistinctIds(drafts)
    ensures Sound(c, AfterMoves(c, Loaded(drafts, length), ms))
  {
    if ms == [] {
      LoadedIsTended(c, drafts, length);
    } else {
      RunKeepsSound(c, drafts, length, ms[..|ms| - 1]);
      MoveKeepsSound(c, AfterMoves(c, Loaded(drafts, length), ms[..|ms| - 1]), ms[|ms| - 1]);
    }
  }

  /** Before the run and after each of its moves, every listed text is looked after. */
  ghost predicate AlwaysTended(c: Config, w: World, ms: seq<Move>) {
    AllTended(AfterMoves(c, w, ms)) && (ms != [] ==> AlwaysTended(c, w, ms[..|ms| - 1]))
  }

  /** No move of the run leaves a listed text behind. */
  ghost predicate NeverDrops(c: Config, w: World, ms: seq<Move>) {
    ms != [] ==>
      var pre := ms[..|ms| - 1];
      NeverDrops(c, w, pre) && DropsNone(c, AfterMoves(c, w, pre), ms[|ms| - 1])
  }

  /** In every run of screen and server from a freshly loaded page, whenever the server stores what and in
      whatever order answers arrive: a listed text that the server does not hold is the whole time on its way
      there, or due to be replaced by what the server holds, or announced on the page, if and only if no move
      of the run is one of those that `Drops` names. */
  lemma {:induction false} TextIsTendedUnlessDropped(c: Config, drafts: seq<Draft>, length: Length, ms: seq<Move>)
    requires DistinctIds(drafts)
    ensures AlwaysTended(c, Loaded(drafts, length), ms) <==> NeverDrops(c, Loaded(drafts, length), ms)
  {
    var w := Loaded(drafts, length);
    if ms == [] {
      LoadedIsTended(c, drafts, length);
    } else {
      var n := |ms| - 1;
      TextIsTendedUnlessDropped(c, drafts, length, ms[..n]);
      if AlwaysTended(c, w, ms[..n]) {
        RunKeepsSound(c, drafts, length, ms[..n]);
        MoveDropsNone(c, AfterMoves(c, w, ms[..n]), ms[n]);
      }
    }
  }

  // ----- agreement -----

  /** No call is in flight, and the page says nothing about anything not saved. */
  predicate AtRest(s: State) {
    && s.saves == map[] && s.generating.None? && (s.send.Some? ==> s.send.value.Marking?)
    && Shown(s).None? && (s.dirty ==> !Editable(s))
  }

  /** The texts listed are those the server holds. */
  ghost predicate Agrees(w: World) {
    forall id :: !Unsaved(w, id)
  }

  /** At rest, screen and server agree if and only if every text is looked after. */
  lemma RestingAgrees(c: Config, w: World)
    requires Sound(c, w) && AtRest(w.screen)
    ensures Agrees(w) <==> AllTended(w)
  {
    forall k: Call ensures Submitted(w.screen, k).None? && k !in w.server.stored {
      if k in w.server.stored { assert StoredFor(w, k); }
    }
    if AllTended(w) {
      forall id ensures !Unsaved(w, id) { assert Tended(w, id); }
    } else {
      var id :| !Tended(w, id);
      assert Unsaved(w, id);
    }
  }

  /** Once such a run comes to rest, screen and server agree on every draft. */
  lemma ScreenAndServerAgree(c: Config, drafts: seq<Draft>, length: Length, ms: seq<Move>)
    requires DistinctIds(drafts) && NeverDrops(c, Loaded(drafts, length), ms)
    requires AtRest(AfterMoves(c, Loaded(drafts, length), ms).screen)
    ensures Agrees(AfterMoves(c, Loaded(drafts, length), ms))
  {
    TextIsTendedUnlessDropped(c, drafts, length, ms);
    RunKeepsSound(c, drafts, length, ms);
    RestingAgrees(c, AfterMoves(c, Loaded(drafts, length), ms));
  }
}
