/** What each event of the import wizard does, field by field. Whatever is not named stays as it is; an event that the
    screen does not offer, or an answer to nothing in flight, does nothing. */
module WizardEffects {
  import opened Collections
  import opened Strings
  import opened WizardProtocol

  /** The error under a table that can be shown: its first one, if any. */
  function Complaint(table: Table): Option<string> {
    match |table.errors|
    case 0 => None
    case _ => Some(table.errors[0])
  }

  /** A table is taken in: with rows under headers it is previewed, with the mapping suggested for its headers, under
      the default name; an empty one is only complained about. */
  ghost predicate TakenIn(lib: Library, s: State, t: State, table: Table, name: string) {
    t == if table.headers == [] || table.totalRows == 0
         then s.(error := if table.errors == [] then Some("No rows found to import.") else Complaint(table))
         else s.(parsed := Some(table), mapping := lib.suggestMapping(table.headers), listName := name,
                 error := Complaint(table), step := Preview)
  }

  /** A file read turns up, whatever the wizard shows by then: a workbook's content is kept for its other sheets, and the
      table in it is taken in; unreadable or unparsable, it only leaves an error. */
  lemma FileTurnsUp(lib: Library, s: State, file: string, content: Option<string>, name: string)
    ensures
      var t := Step(lib, s, ReadSettles(file, content, name));
      if file !in s.calls.fileReads then t == s
      else
        var text := lib.kindOf(file) == TextFile;
        var u := s.(calls := s.calls.(fileReads := s.calls.fileReads - multiset{file}),
                    fileBuffer := if content.Some? && !text then content else s.fileBuffer);
        var table := if content.None? then None
                     else if text then lib.parseText(content.value) else lib.parseWorkbook(content.value, None);
        if table.None? then t == u.(error := Some("Unable to read that file. Please try another export."))
        else TakenIn(lib, u, t, table.value, name)
  {}

  /** Picking a file notes its name and reads it, if it is of a kind that can be imported. */
  lemma FileIsPicked(lib: Library, s: State, file: string)
    ensures
      var t := Step(lib, s, PickFile(file));
      t == if !s.isOpen || s.step != Input || s.mode != Upload then s
           else if lib.kindOf(file).Unsupported?
           then s.(fileName := Some(file), error := Some("Unsupported file type. Upload a CSV or XLSX file."))
           else s.(fileName := Some(file), error := None,
                   calls := s.calls.(fileReads := s.calls.fileReads + multiset{file}))
  {}

  /** Pasted text is previewed if it can be parsed. */
  lemma PasteIsPreviewed(lib: Library, s: State, name: string)
    ensures
      var t, table := Step(lib, s, PreviewPaste(name)), lib.parseText(s.pasteText);
      if !s.isOpen || s.step != Input || s.mode != Paste then t == s
      else if table.None? then t == s.(error := None)
      else TakenIn(lib, s.(error := None), t, table.value, name)
  {}

  /** Another sheet of the file last read replaces the table and its mapping, but not the list name. */
  lemma SheetIsChanged(lib: Library, s: State, sheet: string)
    ensures
      var t := Step(lib, s, ChangeSheet(sheet));
      if && s.isOpen && s.step == Preview && s.parsed.Some? && |s.parsed.value.sheetNames| > 1 && s.fileBuffer.Some?
         && lib.parseWorkbook(s.fileBuffer.value, Some(sheet)).Some?
      then
        var table := lib.parseWorkbook(s.fileBuffer.value, Some(sheet)).value;
        t == s.(parsed := Some(table), mapping := lib.suggestMapping(table.headers), error := Complaint(table))
      else t == s
  {}

  /** Leaving the mapping: an incomplete one is complained about; otherwise the table's rows are validated under it, and
      the contacts that may be imported are checked for duplicates. */
  lemma MappingIsLeft(lib: Library, s: State)
    ensures
      var t := Step(lib, s, ContinueFromMap);
      if !s.isOpen || s.step != Map || s.parsed.None? then t == s
      else if lib.mappingError(s.mapping).Some? then t == s.(error := lib.mappingError(s.mapping))
      else
        var rows := lib.validate(s.parsed.value.headers, s.parsed.value.rows, s.mapping);
        t == s.(validated := rows, error := None, step := Validate,
                calls := s.calls.(checks := s.calls.checks + multiset{Importable(rows)}))
  {}

  /** A duplicate check is answered: its duplicates are shown, or its error is. */
  lemma CheckIsAnswered(lib: Library, s: State, contacts: seq<string>, reply: CheckReply)
    ensures
      var t := Step(lib, s, CheckSettles(contacts, reply));
      if contacts !in s.calls.checks then t == s
      else
        var u := s.(calls := s.calls.(checks := s.calls.checks - multiset{contacts}));
        t == match reply
             case Checked(count, indexes) => u.(duplicates := Duplicates(count, indexes, Some(contacts)))
             case CheckFailed(message) => u.(error := Some(message))
  {}

  /** The import button: one import at a time, with a name and with rows; nothing else is sent by it. */
  lemma ImportIsPressed(lib: Library, s: State)
    ensures
      var t := Step(lib, s, PressImport);
      if !s.isOpen || s.step != Name || s.calls.checks != multiset{} || s.calls.imports != multiset{} then t == s
      else if Trim(s.listName) == "" then t == s.(error := Some("List name is required."))
      else if forall r :: r in s.validated ==> r.status == Invalid then t == s.(error := Some("No valid rows to import."))
      else t == s.(error := None, calls := s.calls.(imports := t.calls.imports)) && |t.calls.imports| == 1
  {
    var kept := Select(s.validated, IsImportable);
    SelectMembers(s.validated, IsImportable);
    if kept != [] { assert kept[0] in kept; }
  }

  /** An import is answered: with a list, the wizard is done; without one, or refused, it shows an error. */
  lemma ImportIsAnswered(lib: Library, s: State, request: ImportRequest, reply: ImportReply)
    ensures
      var t := Step(lib, s, ImportSettles(request, reply));
      if request !in s.calls.imports then t == s
      else
        var u := s.(calls := s.calls.(imports := s.calls.imports - multiset{request}));
        t == match reply
             case ImportFailed(message) => u.(error := Some(message))
             case Imported(result) =>
               if result.listId == "" then u.(error := Some("Import failed."))
               else u.(importResult := Some(result), step := Done)
  {}

  /** Opening and closing start over, but for the calls in flight. */
  lemma WizardStartsOver(lib: Library, s: State)
    ensures
      var start := State(false, Choose, Paste, "", None, None, None, map[], [], Duplicates(0, [], None), Skip, "", None,
                         None, s.calls);
      && Step(lib, s, OpenWizard) == start.(isOpen := true)
      && Step(lib, s, CloseWizard) == if s.isOpen then start else s
  {}

  /** The plain inputs change the one field they are for, and a mode leads to its input. */
  lemma InputsAreTaken(lib: Library, s: State, mode: Mode, text: string, header: string, choice: DuplicateMode)
    ensures Step(lib, s, ChooseMode(mode))
            == if s.isOpen && s.step == Choose then s.(mode := mode, step := Input, error := None) else s
    ensures Step(lib, s, TypePaste(text))
            == if s.isOpen && s.step == Input && s.mode == Paste then s.(pasteText := text) else s
    ensures Step(lib, s, MapColumn(header, text))
            == if s.isOpen && s.step == Map && s.parsed.Some? then s.(mapping := s.mapping[header := text]) else s
    ensures Step(lib, s, TypeName(text)) == if s.isOpen && s.step == Name then s.(listName := text) else s
    ensures Step(lib, s, ChooseDuplicates(choice))
            == if s.isOpen && s.step == Name then s.(duplicateMode := choice) else s
  {}

  /** The step buttons: back one step, or on to the mapping, or on to the name once something can be imported and nothing
      is waited for. */
  lemma StepsAreOffered(lib: Library, s: State, target: Screen)
    ensures
      var offered := match target
        case Choose => s.step == Input
        case Input => s.step == Preview && s.parsed.Some?
        case Preview => s.step == Map && s.parsed.Some?
        case Map => s.step == Validate || (s.step == Preview && s.parsed.Some?)
        case Validate => s.step == Name
        case Name =>
          && s.step == Validate && s.calls.checks == multiset{} && s.calls.imports == multiset{}
          && exists r :: r in s.validated && r.status != Invalid
        case Done => false;
      Step(lib, s, GoTo(target)) == if s.isOpen && offered then s.(step := target) else s
  {
    var kept := Select(s.validated, IsImportable);
    SelectMembers(s.validated, IsImportable);
    if kept != [] { assert kept[0] in kept; }
  }
}
