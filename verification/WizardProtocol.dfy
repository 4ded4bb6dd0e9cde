/** The contact import wizard (src/components/AddContactsWizard.tsx) as a state and the effect of each event.
    Reading a file, checking for duplicates and importing are answered later, in any order, even after the
    wizard was closed or has moved to another step. */
module WizardProtocol {
  import opened Collections
  import opened Strings

  datatype Screen = Choose | Input | Preview | Map | Validate | Name | Done
  datatype Mode = Paste | Upload
  datatype DuplicateMode = Skip | ImportAnyway

  type Mapping = map<string, string>

  datatype Table = Table(
    headers: seq<string>, rows: seq<seq<string>>, totalRows: nat, sheetNames: seq<string>, errors: seq<string>)

  datatype RowStatus = Valid | Warning | Invalid

  /** A validated row; `contact` stands for the prepared contact. */
  datatype CheckedRow = CheckedRow(rowNumber: nat, contact: string, status: RowStatus)

  datatype FileKind = TextFile | Workbook | Unsupported

  /** The import library, not part of this model: parsers answer None where they throw. */
  datatype Library = Library(
    kindOf: string -> FileKind,
    parseText: string -> Option<Table>,
    parseWorkbook: (string, Option<string>) -> Option<Table>,
    suggestMapping: seq<string> -> Mapping,
    mappingError: Mapping -> Option<string>,
    validate: (seq<string>, seq<seq<string>>, Mapping) -> seq<CheckedRow>)

  datatype ImportRequest = ImportRequest(
    name: string, mode: Mode, fileName: Option<string>, contacts: seq<string>, duplicateMode: DuplicateMode)

  datatype ImportResult = ImportResult(listId: string, importedCount: nat)

  datatype CheckReply = Checked(potentialDuplicates: nat, indexes: seq<nat>) | CheckFailed(message: string)
  datatype ImportReply = Imported(result: ImportResult) | ImportFailed(message: string)

  /** The duplicates on screen, and which contacts they were found for. */
  datatype Duplicates = Duplicates(count: nat, indexes: seq<nat>, foundFor: Option<seq<string>>)

  const NO_DUPLICATES := Duplicates(0, [], None)

  /** The calls waiting for their answers. */
  datatype Calls = Calls(fileReads: multiset<string>, checks: multiset<seq<string>>, imports: multiset<ImportRequest>)

  datatype State = State(
    isOpen: bool, step: Screen, mode: Mode, pasteText: string, fileName: Option<string>, fileBuffer: Option<string>,
    parsed: Option<Table>, mapping: Mapping, validated: seq<CheckedRow>,
    duplicates: Duplicates, duplicateMode: DuplicateMode, listName: string, error: Option<string>,
    importResult: Option<ImportResult>, calls: Calls)

  datatype Event =
    | OpenWizard
    | CloseWizard
    | ChooseMode(mode: Mode)
    | TypePaste(text: string)
    | PreviewPaste(defaultName: string)
    | PickFile(fileName: string)
    | ReadSettles(file: string, content: Option<string>, defaultName: string)
    | ChangeSheet(sheet: string)
    | MapColumn(header: string, destination: string)
    | ContinueFromMap
    | CheckSettles(contacts: seq<string>, checkReply: CheckReply)
    | TypeName(text: string)
    | ChooseDuplicates(duplicateMode: DuplicateMode)
    | PressImport
    | ImportSettles(request: ImportRequest, importReply: ImportReply)
    | GoTo(step: Screen)

  // ----- what the screen offers -----

  predicate IsImportable(r: CheckedRow) { r.status != Invalid }

  function ContactOf(r: CheckedRow): string { r.contact }

  function Importable(rows: seq<CheckedRow>): seq<string> {
    MapSeq(ContactOf, Select(rows, IsImportable))
  }

  predicate Pending(s: State) {
    s.calls.checks != multiset{} || s.calls.imports != multiset{}
  }

  /** The plain step buttons. */
  predicate Leads(s: State, target: Screen) {
    match s.step
    case Input => target == Choose
    case Preview => s.parsed.Some? && (target == Input || target == Map)
    case Map => s.parsed.Some? && target == Preview
    case Validate => target == Map || (target == Name && Importable(s.validated) != [] && !Pending(s))
    case Name => target == Validate
    case _ => false
  }

  predicate Offered(s: State, e: Event) {
    match e
    case OpenWizard => true
    case ReadSettles(file, _, _) => file in s.calls.fileReads
    case CheckSettles(contacts, _) => contacts in s.calls.checks
    case ImportSettles(request, _) => request in s.calls.imports
    case CloseWizard => s.isOpen
    case ChooseMode(_) => s.isOpen && s.step == Choose
    case TypePaste(_) => s.isOpen && s.step == Input && s.mode == Paste
    case PreviewPaste(_) => s.isOpen && s.step == Input && s.mode == Paste
    case PickFile(_) => s.isOpen && s.step == Input && s.mode == Upload
    case ChangeSheet(_) => s.isOpen && s.step == Preview && s.parsed.Some? && |s.parsed.value.sheetNames| > 1
    case MapColumn(_, _) => s.isOpen && s.step == Map && s.parsed.Some?
    case ContinueFromMap => s.isOpen && s.step == Map && s.parsed.Some?
    case TypeName(_) => s.isOpen && s.step == Name
    case ChooseDuplicates(_) => s.isOpen && s.step == Name
    case PressImport => s.isOpen && s.step == Name && !Pending(s)
    case GoTo(target) => s.isOpen && Leads(s, target)
  }

  // ----- handlers -----

  const INITIAL := State(
    false, Choose, Paste, "", None, None, None, map[], [], NO_DUPLICATES, Skip, "", None, None,
    Calls(multiset{}, multiset{}, multiset{}))

  /** Everything is as at the start, except that calls in flight stay in flight. */
  function Reset(s: State): State {
    INITIAL.(calls := s.calls)
  }

  function FirstError(table: Table, otherwise: Option<string>): Option<string> {
    if table.errors != [] then Some(table.errors[0]) else otherwise
  }

  function ApplyParsed(lib: Library, s: State, table: Table, listName: string): State {
    if table.headers == [] || table.totalRows == 0 then s.(error := FirstError(table, Some("No rows found to import.")))
    else s.(parsed := Some(table), mapping := lib.suggestMapping(table.headers), listName := listName,
            error := FirstError(table, None), step := Preview)
  }

  function PastePreviewed(lib: Library, s: State, defaultName: string): State {
    var table := lib.parseText(s.pasteText);
    if table.None? then s.(error := None) else ApplyParsed(lib, s.(error := None), table.value, defaultName)
  }

  const UNREADABLE := Some("Unable to read that file. Please try another export.")

  function FilePicked(lib: Library, s: State, file: string): State {
    var t := s.(error := None, fileName := Some(file));
    if lib.kindOf(file).Unsupported? then t.(error := Some("Unsupported file type. Upload a CSV or XLSX file."))
    else t.(calls := s.calls.(fileReads := s.calls.fileReads + multiset{file}))
  }

  /** The file has been read, or could not be; whatever step the wizard is at by now. */
  function FileRead(lib: Library, s: State, file: string, content: Option<string>, defaultName: string): State {
    var t := s.(calls := s.calls.(fileReads := s.calls.fileReads - multiset{file}));
    if content.None? then t.(error := UNREADABLE)
    else if lib.kindOf(file).TextFile? then
      var table := lib.parseText(content.value);
      if table.None? then t.(error := UNREADABLE) else ApplyParsed(lib, t, table.value, defaultName)
    else
      var table := lib.parseWorkbook(content.value, None);
      var u := t.(fileBuffer := content);
      if table.None? then u.(error := UNREADABLE) else ApplyParsed(lib, u, table.value, defaultName)
  }

  function SheetChanged(lib: Library, s: State, sheet: string): State {
    if s.fileBuffer.None? || lib.parseWorkbook(s.fileBuffer.value, Some(sheet)).None? then s
    else
      var table := lib.parseWorkbook(s.fileBuffer.value, Some(sheet)).value;
      s.(parsed := Some(table), mapping := lib.suggestMapping(table.headers), error := FirstError(table, None))
  }

  function Continued(lib: Library, s: State): State {
    if s.parsed.None? then s
    else if lib.mappingError(s.mapping).Some? then s.(error := lib.mappingError(s.mapping))
    else
      var rows := lib.validate(s.parsed.value.headers, s.parsed.value.rows, s.mapping);
      s.(validated := rows, error := None, step := Validate,
         calls := s.calls.(checks := s.calls.checks + multiset{Importable(rows)}))
  }

  function DuplicatesChecked(s: State, contacts: seq<string>, reply: CheckReply): State {
    var t := s.(calls := s.calls.(checks := s.calls.checks - multiset{contacts}));
    match reply
    case CheckFailed(message) => t.(error := Some(message))
    case Checked(count, indexes) => t.(duplicates := Duplicates(count, indexes, Some(contacts)))
  }

  function RequestOf(s: State): ImportRequest {
    ImportRequest(s.listName, s.mode, if s.mode == Upload then s.fileName else None, Importable(s.validated),
                  s.duplicateMode)
  }

  function ImportPressed(s: State): State {
    if Trim(s.listName) == "" then s.(error := Some("List name is required."))
    else if Importable(s.validated) == [] then s.(error := Some("No valid rows to import."))
    else s.(error := None, calls := s.calls.(imports := s.calls.imports + multiset{RequestOf(s)}))
  }

  function ImportSettled(s: State, request: ImportRequest, reply: ImportReply): State {
    var t := s.(calls := s.calls.(imports := s.calls.imports - multiset{request}));
    match reply
    case ImportFailed(message) => t.(error := Some(message))
    case Imported(result) =>
      if result.listId == "" then t.(error := Some("Import failed."))
      else t.(importResult := Some(result), step := Done)
  }

  function Handle(lib: Library, s: State, e: Event): State {
    match e
    case OpenWizard => Reset(s).(isOpen := true)
    case CloseWizard => Reset(s).(isOpen := false)
    case ChooseMode(mode) => s.(mode := mode, step := Input, error := None)
    case TypePaste(text) => s.(pasteText := text)
    case PreviewPaste(name) => PastePreviewed(lib, s, name)
    case PickFile(file) => FilePicked(lib, s, file)
    case ReadSettles(file, content, name) => FileRead(lib, s, file, content, name)
    case ChangeSheet(sheet) => SheetChanged(lib, s, sheet)
    case MapColumn(header, destination) => s.(mapping := s.mapping[header := destination])
    case ContinueFromMap => Continued(lib, s)
    case CheckSettles(contacts, reply) => DuplicatesChecked(s, contacts, reply)
    case TypeName(text) => s.(listName := text)
    case ChooseDuplicates(mode) => s.(duplicateMode := mode)
    case PressImport => ImportPressed(s)
    case ImportSettles(request, reply) => ImportSettled(s, request, reply)
    case GoTo(target) => s.(step := target)
  }

  /** Only what the screen offers, and answers to what is in flight, can happen. */
  function Step(lib: Library, s: State, e: Event): State {
    if Offered(s, e) then Handle(lib, s, e) else s
  }

  function After(lib: Library, es: seq<Event>): State {
    if es == [] then INITIAL else Step(lib, After(lib, es[..|es| - 1]), es[|es| - 1])
  }
}
