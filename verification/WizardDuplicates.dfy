/** The duplicates the import wizard shows: when they are those of the rows about to be imported. */
module WizardDuplicates {
  import opened Collections
  import opened WizardProtocol
  import opened WizardSafety

  /** The steps that show duplicates. */
  predicate Shows(s: State) {
    s.step == Validate || s.step == Name
  }

  /** Whose duplicates should be on screen. */
  predicate FoundForRows(s: State) {
    s.duplicates.foundFor == Some(Importable(s.validated))
  }

  /** While no check is pending, the duplicates shown are those of the rows to be imported. */
  ghost predicate Fresh(s: State) {
    Shows(s) && s.calls.checks == multiset{} ==> FoundForRows(s)
  }

  /** The last pending check is answered for other rows than those validated, or fails with the right
      duplicates not on screen. */
  predicate Stales(s: State, e: Event) {
    && e.CheckSettles? && s.calls.checks == multiset{e.contacts} && Shows(s)
    && if e.checkReply.Checked? then e.contacts != Importable(s.validated) else !FoundForRows(s)
  }

  /** Either no duplicates are shown afterwards, or what they depend on is as it was. */
  ghost predicate LeavesShown(s: State, t: State) {
    Shows(t) ==>
      Shows(s) && t.calls.checks == s.calls.checks && t.validated == s.validated && t.duplicates == s.duplicates
  }

  lemma ParsedLeavesShown(lib: Library, s: State, table: Table, name: string)
    ensures LeavesShown(s, ApplyParsed(lib, s, table, name))
  {}

  lemma FileLeavesShown(lib: Library, s: State, file: string, content: Option<string>, name: string)
    ensures LeavesShown(s, FileRead(lib, s, file, content, name))
  {
    var t := s.(calls := s.calls.(fileReads := s.calls.fileReads - multiset{file}));
    if content.Some? && TableIn(lib, file, content.value).Some? {
      var u := if lib.kindOf(file).TextFile? then t else t.(fileBuffer := content);
      ParsedLeavesShown(lib, u, TableIn(lib, file, content.value).value, name);
    }
  }

  lemma PasteLeavesShown(lib: Library, s: State, name: string)
    ensures LeavesShown(s, PastePreviewed(lib, s, name))
  {
    var table := lib.parseText(s.pasteText);
    if table.Some? { ParsedLeavesShown(lib, s.(error := None), table.value, name); }
  }

  lemma ButtonsLeaveShown(lib: Library, s: State, e: Event)
    requires Offered(s, e)
    requires || e.OpenWizard? || e.CloseWizard? || e.ChooseMode? || e.TypePaste? || e.TypeName?
             || e.ChooseDuplicates? || e.GoTo?
    ensures LeavesShown(s, Handle(lib, s, e))
  {}

  lemma TableEventsLeaveShown(lib: Library, s: State, e: Event)
    requires Offered(s, e) && (e.PickFile? || e.ChangeSheet? || e.MapColumn?)
    ensures LeavesShown(s, Handle(lib, s, e))
  {}

  lemma ImportLeavesShown(s: State, request: ImportRequest, reply: ImportReply)
    ensures LeavesShown(s, ImportPressed(s)) && LeavesShown(s, ImportSettled(s, request, reply))
  {}

  lemma OthersLeaveShown(lib: Library, s: State, e: Event)
    requires Offered(s, e) && !e.CheckSettles? && !e.ContinueFromMap?
    ensures LeavesShown(s, Handle(lib, s, e))
  {
    match e
    case PreviewPaste(name) => PasteLeavesShown(lib, s, name);
    case ReadSettles(file, content, name) => FileLeavesShown(lib, s, file, content, name);
    case PickFile(_) => TableEventsLeaveShown(lib, s, e);
    case ChangeSheet(_) => TableEventsLeaveShown(lib, s, e);
    case MapColumn(_, _) => TableEventsLeaveShown(lib, s, e);
    case PressImport => ImportLeavesShown(s, RequestOf(s), ImportFailed(""));
    case ImportSettles(request, reply) => ImportLeavesShown(s, request, reply);
    case _ => ButtonsLeaveShown(lib, s, e);
  }

  lemma CheckStalesExactly(s: State, contacts: seq<string>, reply: CheckReply)
    requires contacts in s.calls.checks && Fresh(s)
    ensures Fresh(DuplicatesChecked(s, contacts, reply)) <==> !Stales(s, CheckSettles(contacts, reply))
  {
    var t := DuplicatesChecked(s, contacts, reply);
    assert t.calls.checks + multiset{contacts} == s.calls.checks;
    assert t.calls.checks == multiset{} <==> s.calls.checks == multiset{contacts};
  }

  lemma ContinueStaysFresh(lib: Library, s: State)
    requires s.step == Map
    ensures Fresh(Continued(lib, s))
  {
    if Shows(Continued(lib, s)) {
      assert Importable(Validation(lib, s)) in Continued(lib, s).calls.checks;
    }
  }

  /** Fresh duplicates stay so, except in exactly the case `Stales`. */
  lemma StepStalesExactly(lib: Library, s: State, e: Event)
    requires Fresh(s)
    ensures Fresh(Step(lib, s, e)) <==> !(Offered(s, e) && Stales(s, e))
  {
    if Offered(s, e) {
      assert Step(lib, s, e) == Handle(lib, s, e);
      match e
      case CheckSettles(contacts, reply) => CheckStalesExactly(s, contacts, reply);
      case ContinueFromMap => ContinueStaysFresh(lib, s);
      case _ => OthersLeaveShown(lib, s, e);
    }
  }

  /** Before the run and after each of its events, the duplicates shown are fresh. */
  ghost predicate AlwaysFresh(lib: Library, es: seq<Event>) {
    Fresh(After(lib, es)) && (es != [] ==> AlwaysFresh(lib, es[..|es| - 1]))
  }

  /** No event of the run makes them stale. */
  predicate NeverStales(lib: Library, es: seq<Event>) {
    es != [] ==>
      var pre, e := es[..|es| - 1], es[|es| - 1];
      NeverStales(lib, pre) && !(Offered(After(lib, pre), e) && Stales(After(lib, pre), e))
  }

  /** In every run, whatever is answered late: the duplicates shown are those of the rows to be imported the
      whole time if and only if the last pending check is never answered for other rows, and never fails while
      the right ones are not on screen. */
  lemma {:induction false} FreshUnlessStaled(lib: Library, es: seq<Event>)
    ensures AlwaysFresh(lib, es) <==> NeverStales(lib, es)
  {
    if es != [] {
      var pre := es[..|es| - 1];
      FreshUnlessStaled(lib, pre);
      if AlwaysFresh(lib, pre) { StepStalesExactly(lib, After(lib, pre), es[|es| - 1]); }
    }
  }

  // ----- at the name step nothing is pending -----

  ghost predicate NameIsChecked(s: State) {
    s.step == Name ==> s.calls.checks == multiset{}
  }

  lemma StepKeepsNameChecked(lib: Library, s: State, e: Event)
    requires NameIsChecked(s)
    ensures NameIsChecked(Step(lib, s, e))
  {
    if Offered(s, e) && !e.CheckSettles? && !e.ContinueFromMap? && !e.GoTo? {
      OthersLeaveShown(lib, s, e);
      if Handle(lib, s, e).step == Name { OnlyButtonsReachName(lib, s, e); }
    }
  }

  lemma OnlyButtonsReachName(lib: Library, s: State, e: Event)
    requires Offered(s, e) && !e.GoTo? && Handle(lib, s, e).step == Name
    ensures s.step == Name
  {
    match e
    case ReadSettles(file, content, name) => FileStep(lib, s, file, content, name);
    case PreviewPaste(name) => PasteStep(lib, s, name);
    case _ =>
  }

  lemma FileStep(lib: Library, s: State, file: string, content: Option<string>, name: string)
    ensures FileRead(lib, s, file, content, name).step in {s.step, Preview}
  {}

  lemma PasteStep(lib: Library, s: State, name: string)
    ensures PastePreviewed(lib, s, name).step in {s.step, Preview}
  {}

  /** In every run that never stales, the wizard asks to import only rows whose duplicates it shows. */
  lemma {:induction false} NameShowsItsDuplicates(lib: Library, es: seq<Event>)
    ensures NameIsChecked(After(lib, es))
    ensures NeverStales(lib, es) && After(lib, es).step == Name ==> FoundForRows(After(lib, es))
  {
    FreshUnlessStaled(lib, es);
    if es != [] {
      NameShowsItsDuplicates(lib, es[..|es| - 1]);
      StepKeepsNameChecked(lib, After(lib, es[..|es| - 1]), es[|es| - 1]);
    }
  }
}
