/** The import wizard as the object it is (src/components/AddContactsWizard.tsx): its handlers and the
    answers they wait for, changing the fields in place as `WizardProtocol` says. */
module AddContactsWizard {
  import opened Collections
  import opened Strings
  import opened WizardProtocol
  import opened WizardSafety

  class Wizard {
    const lib: Library

    var isOpen: bool
    var step: Screen
    var mode: Mode
    var pasteText: string
    var fileName: Option<string>
    var fileBuffer: Option<string>
    var parsed: Option<Table>
    var mapping: Mapping
    var validated: seq<CheckedRow>
    var duplicates: Duplicates
    var duplicateMode: DuplicateMode
    var listName: string
    var error: Option<string>
    var importResult: Option<ImportResult>
    var calls: Calls

    function Snapshot(): State
      reads this
    {
      State(isOpen, step, mode, pasteText, fileName, fileBuffer, parsed, mapping, validated, duplicates, duplicateMode,
            listName, error, importResult, calls)
    }

    /** What the step on screen promises. */
    ghost predicate Valid()
      reads this
    {
      Agrees(lib, Snapshot())
    }

    constructor (lib: Library)
      ensures Valid() && Snapshot() == INITIAL && this.lib == lib
    {
      this.lib := lib;
      isOpen, step, mode, pasteText, fileName, fileBuffer := false, Choose, Paste, "", None, None;
      parsed, mapping, validated, duplicates, duplicateMode := None, map[], [], NO_DUPLICATES, Skip;
      listName, error, importResult := "", None, None;
      calls := Calls(multiset{}, multiset{}, multiset{});
    }

    /** Nothing of a file, its table or what was found out about its rows is left. */
    method DropTable()
      modifies this`fileName, this`fileBuffer, this`parsed, this`mapping, this`validated, this`duplicates
      ensures fileName == None && fileBuffer == None && parsed == None
      ensures mapping == map[] && validated == [] && duplicates == NO_DUPLICATES
    {
      fileName := None;
      fileBuffer := None;
      parsed := None;
      mapping := map[];
      validated := [];
      duplicates := NO_DUPLICATES;
    }

    /** Opening and closing bring back the initial wizard, except that calls in flight stay in flight. */
    method StartOver(nowOpen: bool)
      modifies this`isOpen, this`step, this`mode, this`pasteText, this`fileName, this`fileBuffer, this`parsed, this`mapping,
               this`validated, this`duplicates, this`duplicateMode, this`listName, this`error, this`importResult
      ensures Snapshot() == INITIAL.(isOpen := nowOpen, calls := calls)
    {
      DropTable();
      isOpen := nowOpen;
      step := Choose;
      mode := Paste;
      pasteText := "";
      duplicateMode := Skip;
      listName := "";
      error := None;
      importResult := None;
    }

    /** A table with something to import takes over, at the preview; any other changes only the error. */
    method UseTable(table: Table, nextListName: string)
      modifies this`parsed, this`mapping, this`listName, this`error, this`step
      ensures Snapshot() == ApplyParsed(lib, old(Snapshot()), table, nextListName)
      ensures step == old(step) || (step == Preview && parsed == Some(table) && table.headers != [])
    {
      if table.headers == [] || table.totalRows == 0 {
        error := FirstError(table, Some("No rows found to import."));
        return;
      }
      parsed := Some(table);
      mapping := lib.suggestMapping(table.headers);
      listName := nextListName;
      error := FirstError(table, None);
      step := Preview;
    }

    method HandleParsePaste(defaultName: string)
      modifies this`parsed, this`mapping, this`listName, this`error, this`step
      ensures Snapshot() == PastePreviewed(lib, old(Snapshot()), defaultName)
    {
      error := None;
      var table := lib.parseText(pasteText);
      if table.Some? { UseTable(table.value, defaultName); }
    }

    /** The pick gives the name that an import will send, whether the file can be read or not. */
    method HandleParseUpload(file: string)
      modifies this`error, this`fileName, this`calls
      ensures Snapshot() == FilePicked(lib, old(Snapshot()), file)
      ensures fileName == Some(file)
    {
      error := None;
      fileName := Some(file);
      if lib.kindOf(file).Unsupported? {
        error := Some("Unsupported file type. Upload a CSV or XLSX file.");
      } else {
        calls := calls.(fileReads := calls.fileReads + multiset{file});
      }
    }

    /** A file is read, at whatever step the wizard is by now: it goes to the preview with a table, or stays
        where it is. */
    method UploadRead(file: string, content: Option<string>, defaultName: string)
      modifies this`calls, this`fileBuffer, this`parsed, this`mapping, this`listName, this`error, this`step
      ensures Snapshot() == FileRead(lib, old(Snapshot()), file, content, defaultName)
      ensures step == old(step) || (step == Preview && parsed.Some? && parsed.value.headers != [])
    {
      calls := calls.(fileReads := calls.fileReads - multiset{file});
      match content
      case None => error := UNREADABLE;
      case Some(text) =>
        if !lib.kindOf(file).TextFile? { fileBuffer := content; }
        match TableIn(lib, file, text)
        case None => error := UNREADABLE;
        case Some(table) => UseTable(table, defaultName);
    }

    /** Another sheet of the kept workbook takes over, empty or not. */
    method HandleSheetChange(sheet: string)
      modifies this`parsed, this`mapping, this`error
      ensures Snapshot() == SheetChanged(lib, old(Snapshot()), sheet)
    {
      if fileBuffer.None? { return; }
      var table := lib.parseWorkbook(fileBuffer.value, Some(sheet));
      if table.None? { return; }
      parsed := table;
      mapping := lib.suggestMapping(table.value.headers);
      error := FirstError(table.value, None);
    }

    /** The way to the validate step: with the validation of the current table, and a check of its rows. */
    method HandleContinueFromMap()
      requires Valid() && step == Map
      modifies this`validated, this`error, this`step, this`calls
      ensures Snapshot() == Continued(lib, old(Snapshot()))
      ensures step == if lib.mappingError(mapping).Some? then Map else Validate
      ensures step == Validate ==> validated == lib.validate(parsed.value.headers, parsed.value.rows, mapping)
      ensures step == Validate ==> Importable(validated) in calls.checks
    {
      match lib.mappingError(mapping)
      case Some(message) => error := Some(message);
      case None =>
        validated := lib.validate(parsed.value.headers, parsed.value.rows, mapping);
        error, step := None, Validate;
        calls := calls.(checks := calls.checks + multiset{Importable(validated)});
    }

    /** An answered check fills in its own duplicates, whatever rows are validated by now; a failed one
        leaves the duplicates on screen. */
    method DuplicateCheckAnswered(contacts: seq<string>, reply: CheckReply)
      modifies this`calls, this`error, this`duplicates
      ensures Snapshot() == DuplicatesChecked(old(Snapshot()), contacts, reply)
      ensures if reply.Checked? then duplicates.foundFor == Some(contacts) else duplicates == old(duplicates)
    {
      calls := calls.(checks := calls.checks - multiset{contacts});
      if reply.CheckFailed? {
        error := Some(reply.message);
      } else {
        duplicates := Duplicates(reply.potentialDuplicates, reply.indexes, Some(contacts));
      }
    }

    /** At the name step, by the invariant, only the name can be missing, and what is sent are the rows that
        the validation of the current table lets through. */
    method HandleImport()
      requires Valid()
      modifies this`error, this`calls
      ensures Snapshot() == ImportPressed(old(Snapshot()))
      ensures step == Name && Trim(listName) == "" ==> calls == old(calls)
      ensures step == Name && Trim(listName) != "" ==>
                exists r :: calls.imports == old(calls.imports) + multiset{r} && r.name == listName
                  && r.contacts == Importable(lib.validate(parsed.value.headers, parsed.value.rows, mapping)) != []
    {
      var importable := Importable(validated);
      if Trim(listName) == "" {
        error := Some("List name is required.");
      } else if importable == [] {
        error := Some("No valid rows to import.");
      } else {
        error := None;
        var request := ImportRequest(listName, mode, if mode == Upload then fileName else None, importable, duplicateMode);
        calls := calls.(imports := calls.imports + multiset{request});
      }
    }

    /** Only a positive answer with a list shows the done step, wherever the wizard is. */
    method ImportAnswered(request: ImportRequest, reply: ImportReply)
      modifies this`calls, this`error, this`importResult, this`step
      ensures Snapshot() == ImportSettled(old(Snapshot()), request, reply)
      ensures step != old(step) ==> step == Done && reply.Imported? && importResult == Some(reply.result)
    {
      calls := calls.(imports := calls.imports - multiset{request});
      match reply
      case ImportFailed(message) => error := Some(message);
      case Imported(result) =>
        if result.listId == "" {
          error := Some("Import failed.");
        } else {
          importResult, step := Some(result), Done;
        }
    }

    /** What is typed or chosen within a step. */
    method Enter(e: Event)
      requires e.TypePaste? || e.MapColumn? || e.TypeName? || e.ChooseDuplicates?
      modifies this`pasteText, this`mapping, this`listName, this`duplicateMode
      ensures Snapshot() == Handle(lib, old(Snapshot()), e)
    {
      match e
      case TypePaste(text) => pasteText := text;
      case MapColumn(header, destination) => mapping := mapping[header := destination];
      case TypeName(text) => listName := text;
      case ChooseDuplicates(m) => duplicateMode := m;
    }

    /** Anything the screen offers, or an answer to what is in flight: the wizard moves as its protocol does,
        and every step stays in agreement with the data it came from. */
    method Dispatch(e: Event)
      requires Valid() && Offered(Snapshot(), e)
      modifies this
      ensures Valid() && Snapshot() == Step(lib, old(Snapshot()), e)
    {
      StepAgrees(lib, Snapshot(), e);
      match e
      case OpenWizard => StartOver(true);
      case CloseWizard => StartOver(false);
      case PreviewPaste(name) => HandleParsePaste(name);
      case PickFile(file) => HandleParseUpload(file);
      case ReadSettles(file, content, name) => UploadRead(file, content, name);
      case ChangeSheet(sheet) => HandleSheetChange(sheet);
      case ContinueFromMap => HandleContinueFromMap();
      case CheckSettles(contacts, reply) => DuplicateCheckAnswered(contacts, reply);
      case PressImport => HandleImport();
      case ImportSettles(request, reply) => ImportAnswered(request, reply);
      case ChooseMode(m) => mode, step, error := m, Input, None;
      case GoTo(target) => step := target;
      case _ => Enter(e);
    }
  }
}
