/** The file name sent with an import: when it is that of the file the imported table came from. */
module WizardFileNames {
  import opened Collections
  import opened WizardProtocol
  import opened WizardSafety

  /** The files that the current table and the kept workbook were read from; none for a pasted table. */
  datatype Origins = Origins(table: Option<string>, workbook: Option<string>)

  const NO_ORIGINS := Origins(None, None)

  predicate FileAccepted(lib: Library, file: string, content: Option<string>) {
    content.Some? && TableIn(lib, file, content.value).Some? && Filled(TableIn(lib, file, content.value).value)
  }

  predicate SheetAccepted(lib: Library, s: State, sheet: string) {
    s.fileBuffer.Some? && lib.parseWorkbook(s.fileBuffer.value, Some(sheet)).Some?
  }

  predicate PasteAccepted(lib: Library, s: State) {
    lib.parseText(s.pasteText).Some? && Filled(lib.parseText(s.pasteText).value)
  }

  function Track(lib: Library, s: State, o: Origins, e: Event): Origins {
    if !Offered(s, e) then o
    else match e
      case OpenWizard => NO_ORIGINS
      case CloseWizard => NO_ORIGINS
      case PreviewPaste(_) => if PasteAccepted(lib, s) then o.(table := None) else o
      case ReadSettles(file, content, _) =>
        Origins(if FileAccepted(lib, file, content) then Some(file) else o.table,
                if content.Some? && !lib.kindOf(file).TextFile? then Some(file) else o.workbook)
      case ChangeSheet(sheet) => if SheetAccepted(lib, s, sheet) then o.(table := o.workbook) else o
      case _ => o
  }

  /** The file name an import would send. */
  function SentName(s: State): Option<string> {
    if s.mode == Upload then s.fileName else None
  }

  predicate HasTable(s: State) {
    s.step == Preview || s.step == Map || s.step == Validate || s.step == Name
  }

  /** From the preview on, the name an import would send is where the table came from. */
  predicate NamedTruly(s: State, o: Origins) {
    HasTable(s) ==> SentName(s) == o.table
  }

  /** A file is read while another one, or none, is the latest pick; or a sheet of another workbook is taken. */
  predicate Misnames(lib: Library, s: State, o: Origins, e: Event) {
    match e
    case ReadSettles(file, content, _) => FileAccepted(lib, file, content) && SentName(s) != Some(file)
    case ChangeSheet(sheet) => SheetAccepted(lib, s, sheet) && SentName(s) != o.workbook
    case _ => false
  }

  /** The name stays what it was, or there is no table any more. */
  predicate KeepsName(s: State, t: State) {
    HasTable(t) ==> HasTable(s) && SentName(t) == SentName(s)
  }

  lemma FileNamesExactly(lib: Library, s: State, o: Origins, file: string, content: Option<string>, name: string)
    requires NamedTruly(s, o) && file in s.calls.fileReads
    ensures
      var e := ReadSettles(file, content, name);
      NamedTruly(FileRead(lib, s, file, content, name), Track(lib, s, o, e)) <==> !Misnames(lib, s, o, e)
  {
    var t := FileRead(lib, s, file, content, name);
    FileReadName(lib, s, file, content, name);
  }

  lemma FileReadName(lib: Library, s: State, file: string, content: Option<string>, name: string)
    ensures
      var t := FileRead(lib, s, file, content, name);
      && SentName(t) == SentName(s)
      && t.step == if FileAccepted(lib, file, content) then Preview else s.step
  {}

  lemma SheetNamesExactly(lib: Library, s: State, o: Origins, sheet: string)
    requires NamedTruly(s, o) && Offered(s, ChangeSheet(sheet))
    ensures NamedTruly(SheetChanged(lib, s, sheet), Track(lib, s, o, ChangeSheet(sheet)))
            <==> !Misnames(lib, s, o, ChangeSheet(sheet))
  {}

  lemma PasteNamesTruly(lib: Library, s: State, o: Origins, name: string)
    requires NamedTruly(s, o) && Offered(s, PreviewPaste(name))
    ensures NamedTruly(PastePreviewed(lib, s, name), Track(lib, s, o, PreviewPaste(name)))
  {}

  lemma AnswersKeepName(s: State, e: Event, lib: Library)
    requires Offered(s, e) && (e.CheckSettles? || e.ImportSettles? || e.PressImport? || e.ContinueFromMap?)
    ensures KeepsName(s, Handle(lib, s, e))
  {}

  lemma ButtonsKeepName(lib: Library, s: State, e: Event)
    requires Offered(s, e)
    requires || e.ChooseMode? || e.TypePaste? || e.PickFile? || e.MapColumn? || e.TypeName? || e.ChooseDuplicates? || e.GoTo?
    ensures KeepsName(s, Handle(lib, s, e))
  {}

  /** A true name stays true, except in exactly the cases of `Misnames`. */
  lemma StepMisnamesExactly(lib: Library, s: State, o: Origins, e: Event)
    requires NamedTruly(s, o)
    ensures NamedTruly(Step(lib, s, e), Track(lib, s, o, e)) <==> !(Offered(s, e) && Misnames(lib, s, o, e))
  {
    if Offered(s, e) {
      assert Step(lib, s, e) == Handle(lib, s, e);
      match e
      case OpenWizard =>
      case CloseWizard =>
      case PreviewPaste(name) => PasteNamesTruly(lib, s, o, name);
      case ReadSettles(file, content, name) => FileNamesExactly(lib, s, o, file, content, name);
      case ChangeSheet(sheet) => SheetNamesExactly(lib, s, o, sheet);
      case CheckSettles(_, _) => AnswersKeepName(s, e, lib);
      case ImportSettles(_, _) => AnswersKeepName(s, e, lib);
      case PressImport => AnswersKeepName(s, e, lib);
      case ContinueFromMap => AnswersKeepName(s, e, lib);
      case _ => ButtonsKeepName(lib, s, e);
    }
  }

  function OriginsAfter(lib: Library, es: seq<Event>): Origins {
    if es == [] then NO_ORIGINS
    else
      var pre := es[..|es| - 1];
      Track(lib, After(lib, pre), OriginsAfter(lib, pre), es[|es| - 1])
  }

  /** Before the run and after each of its events, the name is true. */
  predicate AlwaysNamedTruly(lib: Library, es: seq<Event>) {
    NamedTruly(After(lib, es), OriginsAfter(lib, es)) && (es != [] ==> AlwaysNamedTruly(lib, es[..|es| - 1]))
  }

  predicate NeverMisnames(lib: Library, es: seq<Event>) {
    es != [] ==>
      var pre, e := es[..|es| - 1], es[|es| - 1];
      && NeverMisnames(lib, pre)
      && !(Offered(After(lib, pre), e) && Misnames(lib, After(lib, pre), OriginsAfter(lib, pre), e))
  }

  /** In every run: the file name an import would send is that of the file its table came from the whole time,
      if and only if no file is read while another pick is the latest, and no sheet is taken of another
      workbook than the one named. */
  lemma {:induction false} NameIsTrueUnlessMisnamed(lib: Library, es: seq<Event>)
    ensures AlwaysNamedTruly(lib, es) <==> NeverMisnames(lib, es)
  {
    if es != [] {
      var pre := es[..|es| - 1];
      NameIsTrueUnlessMisnamed(lib, pre);
      if AlwaysNamedTruly(lib, pre) {
        StepMisnamesExactly(lib, After(lib, pre), OriginsAfter(lib, pre), es[|es| - 1]);
      }
    }
  }
}
