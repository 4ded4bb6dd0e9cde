/** Later steps of the import wizard agree with the data they came from. */
module WizardSafety {
  import opened Collections
  import opened Strings
  import opened WizardProtocol

  /** The rows of the table that can be imported under the mapping. */
  function Validation(lib: Library, s: State): seq<CheckedRow>
    requires s.parsed.Some?
  {
    lib.validate(s.parsed.value.headers, s.parsed.value.rows, s.mapping)
  }

  /** What each step promises. */
  ghost predicate Agrees(lib: Library, s: State) {
    match s.step
    case Choose => true
    case Input => true
    case Preview => s.parsed.Some?
    case Map => s.parsed.Some?
    case Validate => s.parsed.Some? && s.validated == Validation(lib, s)
    case Name => s.parsed.Some? && s.validated == Validation(lib, s) && Importable(s.validated) != []
    case Done => s.importResult.Some?
  }

  lemma ParsedAgrees(lib: Library, s: State, table: Table, listName: string)
    requires Agrees(lib, s)
    ensures Agrees(lib, ApplyParsed(lib, s, table, listName))
  {}

  lemma FileReadAgrees(lib: Library, s: State, file: string, content: Option<string>, name: string)
    requires Agrees(lib, s)
    ensures Agrees(lib, FileRead(lib, s, file, content, name))
  {
    var t := s.(calls := s.calls.(fileReads := s.calls.fileReads - multiset{file}));
    var u := t.(fileBuffer := content);
    if content.Some? {
      if lib.kindOf(file).TextFile? {
        if lib.parseText(content.value).Some? { ParsedAgrees(lib, t, lib.parseText(content.value).value, name); }
      } else {
        var table := lib.parseWorkbook(content.value, None);
        if table.Some? { ParsedAgrees(lib, u, table.value, name); }
      }
    }
  }

  lemma PasteAgrees(lib: Library, s: State, name: string)
    requires Agrees(lib, s)
    ensures Agrees(lib, PastePreviewed(lib, s, name))
  {
    var table := lib.parseText(s.pasteText);
    if table.Some? { ParsedAgrees(lib, s.(error := None), table.value, name); }
  }

  lemma MappingStepsAgree(lib: Library, s: State, e: Event)
    requires Agrees(lib, s) && Offered(s, e) && (e.ChangeSheet? || e.MapColumn? || e.ContinueFromMap? || e.GoTo?)
    ensures Agrees(lib, Handle(lib, s, e))
  {}

  lemma CheckAgrees(lib: Library, s: State, contacts: seq<string>, reply: CheckReply)
    requires Agrees(lib, s)
    ensures Agrees(lib, DuplicatesChecked(s, contacts, reply))
  {}

  lemma ImportAgrees(lib: Library, s: State, request: ImportRequest, reply: ImportReply)
    requires Agrees(lib, s)
    ensures Agrees(lib, ImportPressed(s)) && Agrees(lib, ImportSettled(s, request, reply))
  {}

  lemma StepAgrees(lib: Library, s: State, e: Event)
    requires Agrees(lib, s)
    ensures Agrees(lib, Step(lib, s, e))
  {
    if Offered(s, e) {
      match e
      case PreviewPaste(name) => PasteAgrees(lib, s, name);
      case ReadSettles(file, content, name) => FileReadAgrees(lib, s, file, content, name);
      case ChangeSheet(_) => MappingStepsAgree(lib, s, e);
      case MapColumn(_, _) => MappingStepsAgree(lib, s, e);
      case ContinueFromMap => MappingStepsAgree(lib, s, e);
      case GoTo(_) => MappingStepsAgree(lib, s, e);
      case CheckSettles(contacts, reply) => CheckAgrees(lib, s, contacts, reply);
      case ImportSettles(request, reply) => ImportAgrees(lib, s, request, reply);
      case PressImport => ImportAgrees(lib, s, RequestOf(s), ImportFailed(""));
      case _ =>
    }
  }

  /** In every run, even with files read and answers arriving late: at the validate and name steps the
      validated rows are the validation of the current table under the current mapping, at the name step at
      least one row can be imported, and the done step has a result to show. */
  lemma {:induction false} RunAgrees(lib: Library, es: seq<Event>)
    ensures Agrees(lib, After(lib, es))
  {
    if es != [] {
      RunAgrees(lib, es[..|es| - 1]);
      StepAgrees(lib, After(lib, es[..|es| - 1]), es[|es| - 1]);
    }
  }

  lemma ParsedImportsNothing(lib: Library, s: State, table: Table, name: string)
    ensures ApplyParsed(lib, s, table, name).calls.imports == s.calls.imports
  {}

  lemma FileImportsNothing(lib: Library, s: State, file: string, content: Option<string>, name: string)
    ensures FileRead(lib, s, file, content, name).calls.imports == s.calls.imports
  {
    var t := s.(calls := s.calls.(fileReads := s.calls.fileReads - multiset{file}));
    if content.Some? {
      if lib.kindOf(file).TextFile? {
        if lib.parseText(content.value).Some? { ParsedImportsNothing(lib, t, lib.parseText(content.value).value, name); }
      } else {
        var table := lib.parseWorkbook(content.value, None);
        if table.Some? { ParsedImportsNothing(lib, t.(fileBuffer := content), table.value, name); }
      }
    }
  }

  lemma MappingImportsNothing(lib: Library, s: State, sheet: string, name: string)
    ensures PastePreviewed(lib, s, name).calls.imports == s.calls.imports
    ensures SheetChanged(lib, s, sheet).calls.imports == s.calls.imports
    ensures Continued(lib, s).calls.imports == s.calls.imports
  {}

  lemma OnlyPressesImport(lib: Library, s: State, e: Event)
    requires !e.PressImport? && !e.ImportSettles?
    ensures Handle(lib, s, e).calls.imports == s.calls.imports
  {
    match e
    case PreviewPaste(name) => MappingImportsNothing(lib, s, "", name);
    case ReadSettles(file, content, name) => FileImportsNothing(lib, s, file, content, name);
    case ChangeSheet(sheet) => MappingImportsNothing(lib, s, sheet, "");
    case ContinueFromMap => MappingImportsNothing(lib, s, "", "");
    case _ =>
  }

  lemma ImportPressSends(s: State)
    requires s.calls.imports == multiset{}
    ensures
      var t := ImportPressed(s);
      || t.calls.imports == s.calls.imports
      || (Trim(s.listName) != "" && Importable(s.validated) != [] && t.calls.imports == multiset{RequestOf(s)})
  {}

  lemma AnswersSendNothing(s: State, request: ImportRequest, reply: ImportReply)
    ensures ImportSettled(s, request, reply).calls.imports <= s.calls.imports
  {}

  /** The import is of the rows that validation lets through, under the typed name, with what the user chose and, for an
      upload, the file's name. */
  ghost predicate SendsValidRows(lib: Library, s: State, q: ImportRequest) {
    && s.calls.imports == multiset{} && s.parsed.Some? && q.name == s.listName && Trim(q.name) != ""
    && q.contacts == Importable(Validation(lib, s)) != []
    && q.mode == s.mode && q.fileName == (match s.mode case Upload => s.fileName case Paste => None)
    && q.duplicateMode == s.duplicateMode
  }

  /** An import sends, under a name that is not blank, exactly the rows that are not invalid, in order, of
      the current table under the current mapping, and there is at least one; and no other import is in
      flight then. No other event sends anything. */
  lemma ImportSendsValidRows(lib: Library, es: seq<Event>, e: Event)
    ensures
      var s := After(lib, es);
      || Step(lib, s, e).calls.imports <= s.calls.imports
      || (e == PressImport && exists q :: SendsValidRows(lib, s, q) && Step(lib, s, e).calls.imports == multiset{q})
  {
    RunAgrees(lib, es);
    var s := After(lib, es);
    if Offered(s, e) {
      assert Step(lib, s, e) == Handle(lib, s, e);
      match e
      case PressImport =>
        ImportPressSends(s);
        assert s.parsed.Some? && s.validated == Validation(lib, s);
        if Trim(s.listName) != "" && Importable(s.validated) != [] { assert SendsValidRows(lib, s, RequestOf(s)); }
      case ImportSettles(request, reply) => AnswersSendNothing(s, request, reply);
      case _ => OnlyPressesImport(lib, s, e);
    }
  }

  lemma ImportableKeepsOrder(rows: seq<CheckedRow>)
    ensures exists kept :: Subsequence(kept, rows) && Importable(rows) == MapSeq(ContactOf, kept)
                           && forall r :: r in kept <==> r in rows && r.status != Invalid
  {
    var kept := Select(rows, IsImportable);
    SelectIsSubsequence(rows, IsImportable);
    SelectMembers(rows, IsImportable);
    assert Subsequence(kept, rows) && Importable(rows) == MapSeq(ContactOf, kept);
  }

  /** The table in a file's content, if the library can read it. */
  function TableIn(lib: Library, file: string, content: string): Option<Table> {
    if lib.kindOf(file).TextFile? then lib.parseText(content) else lib.parseWorkbook(content, None)
  }

  /** There is something to import in it. */
  predicate Filled(table: Table) {
    table.headers != [] && table.totalRows != 0
  }

  /** Wherever the wizard is when a text file or workbook turns out readable, it goes back to the preview of
      that file, with the mapping suggested for it. */
  lemma LateFileReturnsToPreview(lib: Library, es: seq<Event>, file: string, content: string, name: string)
    requires file in After(lib, es).calls.fileReads && TableIn(lib, file, content).Some?
    requires Filled(TableIn(lib, file, content).value)
    ensures
      var t, table := Step(lib, After(lib, es), ReadSettles(file, Some(content), name)), TableIn(lib, file, content);
      t.step == Preview && t.parsed == table && t.mapping == lib.suggestMapping(table.value.headers)
  {}
}
